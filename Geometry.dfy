/** The bounding-box mesh of a raycast volume: coordinates, the corner numbering
    shared by the vertex and texture-coordinate buffers, the fixed quad index
    table, and the two sets of texture coordinates (default and half-texel inset).
    Exact reals stand for the 32-bit floats of the C++ code, so the inset is
    exactly 1/(2n) and no rounding is modelled. */
module BoxGeometry {

  /** A point or a texture coordinate. */
  datatype Vec3 = Vec3(x: real, y: real, z: real)

  /** An axis-aligned box given by its two corners; min <= max is not enforced. */
  datatype AABB = AABB(minCorner: Vec3, maxCorner: Vec3)

  /** A voxel resolution: one signed integer per axis. */
  datatype IVec3 = IVec3(x: int, y: int, z: int)

  const UnitBox: AABB := AABB(Vec3(0.0, 0.0, 0.0), Vec3(1.0, 1.0, 1.0))

  // ---------------------------------------------------------------------------
  // Corner numbering. Corner i sits on the high side of x when i mod 4 is 1 or 2,
  // on the high side of y when i mod 4 is 2 or 3, and on the high side of z when
  // i < 4: corners 0-3 form the z-max face, corners 4-7 the z-min face.
  // ---------------------------------------------------------------------------

  predicate HighX(i: int) { i % 4 == 1 || i % 4 == 2 }
  predicate HighY(i: int) { i % 4 == 2 || i % 4 == 3 }
  predicate HighZ(i: int) { i < 4 }

  /** Whether corner i is on the high side of axis 0 (x), 1 (y) or 2 (z). */
  predicate High(axis: int, i: int)
  {
    if axis == 0 then HighX(i) else if axis == 1 then HighY(i) else HighZ(i)
  }

  function Pick(high: bool, lo: real, hi: real): real { if high then hi else lo }

  /** Corner i of the box spanned by lo and hi, under the numbering above. */
  function Corner(lo: Vec3, hi: Vec3, i: int): Vec3
  {
    Vec3(Pick(HighX(i), lo.x, hi.x), Pick(HighY(i), lo.y, hi.y), Pick(HighZ(i), lo.z, hi.z))
  }

  /** The eight corners of the box spanned by lo and hi, in buffer order. */
  function Corners(lo: Vec3, hi: Vec3): (r: seq<Vec3>)
    ensures |r| == 8
  {
    seq(8, i => Corner(lo, hi, i))
  }

  /** The vertex buffer contents that setBox produces for a box. */
  function BoxVertices(b: AABB): (r: seq<Vec3>)
    ensures |r| == 8
  {
    Corners(b.minCorner, b.maxCorner)
  }

  /** The number of the corner on the given sides of x, y and z. */
  function CornerIndex(hx: bool, hy: bool, hz: bool): (i: int)
    ensures 0 <= i < 8
    ensures HighX(i) == hx && HighY(i) == hy && HighZ(i) == hz
  {
    var k := if hx && hy then 2 else if hx then 1 else if hy then 3 else 0;
    if hz then k else k + 4
  }

  /** Different corner numbers name different sides on some axis, so the
      numbering is a bijection between 0..7 and the eight choices of sides. */
  lemma CornerCodeIsInjective()
    ensures forall i, j :: 0 <= i < 8 && 0 <= j < 8 && i != j ==>
      HighX(i) != HighX(j) || HighY(i) != HighY(j) || HighZ(i) != HighZ(j)
    ensures forall i :: 0 <= i < 8 ==> CornerIndex(HighX(i), HighY(i), HighZ(i)) == i
  {
  }

  /** The explicit layout of the corner list: 0-3 on the z-max face, 4-7 on the
      z-min face, vertex i+4 right below vertex i, x/y running (x0,y0), (x1,y0),
      (x1,y1), (x0,y1). */
  lemma CornersLayout(lo: Vec3, hi: Vec3)
    ensures Corners(lo, hi) == [
      Vec3(lo.x, lo.y, hi.z), Vec3(hi.x, lo.y, hi.z), Vec3(hi.x, hi.y, hi.z), Vec3(lo.x, hi.y, hi.z),
      Vec3(lo.x, lo.y, lo.z), Vec3(hi.x, lo.y, lo.z), Vec3(hi.x, hi.y, lo.z), Vec3(lo.x, hi.y, lo.z)]
    ensures forall i, j :: 0 <= i < 4 && j == i + 4 ==>
      && Corners(lo, hi)[i].z == hi.z
      && Corners(lo, hi)[j].z == lo.z
      && Corners(lo, hi)[j].x == Corners(lo, hi)[i].x
      && Corners(lo, hi)[j].y == Corners(lo, hi)[i].y
  {
  }

  /** For any box, flat or inverted included, the entry at the number of a
      choice of sides is the box corner on those sides. */
  lemma CornersPlaceEveryCorner(lo: Vec3, hi: Vec3)
    ensures forall hx: bool, hy: bool, hz: bool ::
      Corners(lo, hi)[CornerIndex(hx, hy, hz)] == Vec3(Pick(hx, lo.x, hi.x), Pick(hy, lo.y, hi.y), Pick(hz, lo.z, hi.z))
  {
  }

  /** For a box that is not flat on any axis, the eight buffer entries are eight
      different points. */
  lemma CornersAreTheBoxCorners(lo: Vec3, hi: Vec3)
    requires lo.x < hi.x && lo.y < hi.y && lo.z < hi.z
    ensures forall i, j :: 0 <= i < j < 8 ==> Corners(lo, hi)[i] != Corners(lo, hi)[j]
  {
    CornerCodeIsInjective();
  }

  // ---------------------------------------------------------------------------
  // The quad index table of the box mesh (six faces of four vertices each).
  // ---------------------------------------------------------------------------

  const QuadIndices: seq<int> := [0, 1, 2, 3,  1, 5, 6, 2,  5, 4, 7, 6,  4, 0, 3, 7,  3, 2, 6, 7,  4, 5, 1, 0]

  /** Quad q of the table (q in 0..5). */
  function Quad(q: int): (r: seq<int>)
    requires 0 <= q < 6
    ensures |r| == 4
  {
    [QuadIndices[4 * q], QuadIndices[4 * q + 1], QuadIndices[4 * q + 2], QuadIndices[4 * q + 3]]
  }

  /** Every vertex of the quad lies on the given side of the given axis. */
  predicate OnFace(quad: seq<int>, axis: int, high: bool)
  {
    forall k :: 0 <= k < |quad| ==> High(axis, quad[k]) == high
  }

  /** The number of quads among the first n that use vertex v. */
  function QuadsUsing(v: int, n: int): nat
    requires 0 <= n <= 6
  {
    if n == 0 then 0 else QuadsUsing(v, n - 1) + (if v in Quad(n - 1) then 1 else 0)
  }

  lemma QuadIndicesInRange()
    ensures |QuadIndices| == 24
    ensures forall k :: 0 <= k < |QuadIndices| ==> 0 <= QuadIndices[k] < 8
  {
  }

  lemma QuadsHaveDistinctVertices()
    ensures forall q, a, b :: 0 <= q < 6 && 0 <= a < b < 4 ==> Quad(q)[a] != Quad(q)[b]
  {
  }

  /** The incidence count over all six quads, written out. */
  lemma {:induction false} QuadsUsingAll(v: int)
    ensures QuadsUsing(v, 6) ==
      (if v in [0, 1, 2, 3] then 1 else 0) + (if v in [1, 5, 6, 2] then 1 else 0) + (if v in [5, 4, 7, 6] then 1 else 0) +
      (if v in [4, 0, 3, 7] then 1 else 0) + (if v in [3, 2, 6, 7] then 1 else 0) + (if v in [4, 5, 1, 0] then 1 else 0)
  {
    assert Quad(0) == [0, 1, 2, 3] && Quad(1) == [1, 5, 6, 2] && Quad(2) == [5, 4, 7, 6];
    assert Quad(3) == [4, 0, 3, 7] && Quad(4) == [3, 2, 6, 7] && Quad(5) == [4, 5, 1, 0];
    assert QuadsUsing(v, 6) == QuadsUsing(v, 5) + (if v in Quad(5) then 1 else 0);
    assert QuadsUsing(v, 5) == QuadsUsing(v, 4) + (if v in Quad(4) then 1 else 0);
    assert QuadsUsing(v, 4) == QuadsUsing(v, 3) + (if v in Quad(3) then 1 else 0);
    assert QuadsUsing(v, 3) == QuadsUsing(v, 2) + (if v in Quad(2) then 1 else 0);
    assert QuadsUsing(v, 2) == QuadsUsing(v, 1) + (if v in Quad(1) then 1 else 0);
    assert QuadsUsing(v, 1) == (if v in Quad(0) then 1 else 0);
  }

  lemma EveryVertexInThreeQuads()
    ensures forall v :: 0 <= v < 8 ==> QuadsUsing(v, 6) == 3
  {
    forall v | 0 <= v < 8
      ensures QuadsUsing(v, 6) == 3
    {
      QuadsUsingAll(v);
    }
  }

  /** The quad of the table that covers the face on the given side of an axis
      (0 = x, 1 = y, 2 = z). */
  function FaceQuad(axis: int, high: bool): (q: int)
    requires 0 <= axis < 3
    ensures 0 <= q < 6
    ensures OnFace(Quad(q), axis, high)
  {
    if axis == 0 then (if high then 1 else 3)
    else if axis == 1 then (if high then 4 else 5)
    else (if high then 0 else 2)
  }

  /** Under the corner numbering of the vertex buffer, every quad of the table is
      one face of the box, and the six faces are six different quads. */
  lemma QuadsAreTheFaces()
    ensures forall q :: 0 <= q < 6 ==> exists axis, high: bool :: 0 <= axis < 3 && OnFace(Quad(q), axis, high)
    ensures forall a1, h1: bool, a2, h2: bool :: 0 <= a1 < 3 && 0 <= a2 < 3 && (a1, h1) != (a2, h2) ==>
      FaceQuad(a1, h1) != FaceQuad(a2, h2)
  {
    assert FaceQuad(2, true) == 0 && FaceQuad(0, true) == 1 && FaceQuad(2, false) == 2;
    assert FaceQuad(0, false) == 3 && FaceQuad(1, true) == 4 && FaceQuad(1, false) == 5;
  }

  // ---------------------------------------------------------------------------
  // Texture coordinates.
  // ---------------------------------------------------------------------------

  /** The coordinates installed at construction: the raw unit-cube corners with
      z = 0 on corners 0-3 and z = 1 on corners 4-7. */
  const DefaultTexCoords: seq<Vec3> := [
    Vec3(0.0, 0.0, 0.0), Vec3(1.0, 0.0, 0.0), Vec3(1.0, 1.0, 0.0), Vec3(0.0, 1.0, 0.0),
    Vec3(0.0, 0.0, 1.0), Vec3(1.0, 0.0, 1.0), Vec3(1.0, 1.0, 1.0), Vec3(0.0, 1.0, 1.0)]

  /** The default coordinates are the unit box's vertex list with its two faces
      swapped: same x/y pattern, z flipped. This is the one place where the
      texture numbering differs from the vertex numbering. */
  lemma DefaultTexCoordsFlipZ()
    ensures |DefaultTexCoords| == 8
    ensures forall i :: 0 <= i < 8 ==> DefaultTexCoords[i] == BoxVertices(UnitBox)[(i + 4) % 8]
    ensures forall i :: 0 <= i < 8 ==>
      && DefaultTexCoords[i].x == BoxVertices(UnitBox)[i].x
      && DefaultTexCoords[i].y == BoxVertices(UnitBox)[i].y
      && DefaultTexCoords[i].z == 1.0 - BoxVertices(UnitBox)[i].z
    ensures forall i :: 0 <= i < 8 ==> DefaultTexCoords[i].z == if i < 4 then 0.0 else 1.0
    ensures DefaultTexCoords != BoxVertices(UnitBox)
  {
    CornersLayout(UnitBox.minCorner, UnitBox.maxCorner);
    var unit := BoxVertices(UnitBox);
    assert unit == [
      Vec3(0.0, 0.0, 1.0), Vec3(1.0, 0.0, 1.0), Vec3(1.0, 1.0, 1.0), Vec3(0.0, 1.0, 1.0),
      Vec3(0.0, 0.0, 0.0), Vec3(1.0, 0.0, 0.0), Vec3(1.0, 1.0, 0.0), Vec3(0.0, 1.0, 0.0)];
    assert DefaultTexCoords[0] != unit[0];
  }

  /** A resolution with a zero on some axis does not describe a 3D image. */
  predicate Degenerate(size: IVec3) { size.x == 0 || size.y == 0 || size.z == 0 }

  /** Half a texel of a grid with n texels on an axis. */
  function HalfTexel(n: int): real
    requires n != 0
  {
    0.5 / (n as real)
  }

  function InsetLow(size: IVec3): Vec3
    requires !Degenerate(size)
  {
    Vec3(0.0 + HalfTexel(size.x), 0.0 + HalfTexel(size.y), 0.0 + HalfTexel(size.z))
  }

  function InsetHigh(size: IVec3): Vec3
    requires !Degenerate(size)
  {
    Vec3(1.0 - HalfTexel(size.x), 1.0 - HalfTexel(size.y), 1.0 - HalfTexel(size.z))
  }

  /** The coordinates generateTextureCoordinates writes for a valid resolution:
      the corners of the box inset by half a texel, in vertex-buffer order. */
  function InsetTexCoords(size: IVec3): (r: seq<Vec3>)
    requires !Degenerate(size)
    ensures |r| == 8
  {
    Corners(InsetLow(size), InsetHigh(size))
  }

  /** The inset coordinates written out entry by entry. */
  lemma InsetTexCoordsLiteral(size: IVec3)
    requires !Degenerate(size)
    ensures var dx, dy, dz := HalfTexel(size.x), HalfTexel(size.y), HalfTexel(size.z);
      InsetTexCoords(size) == [
        Vec3(0.0 + dx, 0.0 + dy, 1.0 - dz), Vec3(1.0 - dx, 0.0 + dy, 1.0 - dz),
        Vec3(1.0 - dx, 1.0 - dy, 1.0 - dz), Vec3(0.0 + dx, 1.0 - dy, 1.0 - dz),
        Vec3(0.0 + dx, 0.0 + dy, 0.0 + dz), Vec3(1.0 - dx, 0.0 + dy, 0.0 + dz),
        Vec3(1.0 - dx, 1.0 - dy, 0.0 + dz), Vec3(0.0 + dx, 1.0 - dy, 0.0 + dz)]
  {
    CornersLayout(InsetLow(size), InsetHigh(size));
  }

  function Abs(r: real): real { if r < 0.0 then -r else r }

  /** A coordinate on an axis with n > 0 texels lies on a texel centre at the border. */
  predicate WithinInset(c: real, n: int)
    requires n > 0
  {
    && (c == HalfTexel(n) || c == 1.0 - HalfTexel(n))
    && 1.0 / (2.0 * n as real) <= c <= 1.0 - 1.0 / (2.0 * n as real)
    && 0.0 < c < 1.0
  }

  lemma HalfTexelRange(n: int)
    requires n > 0
    ensures HalfTexel(n) == 1.0 / (2.0 * n as real)
    ensures 0.0 < HalfTexel(n) <= 0.5
  {
    var h, r := HalfTexel(n), n as real;
    assert h * r == 0.5;
    assert r >= 1.0;
    assert h <= 0.5;
  }

  /** For each axis with n > 0 texels, every inset coordinate is 1/(2n) or
      1 - 1/(2n), sits strictly inside (0,1), and is exactly half a texel away
      from the unit-cube corner with the same number. */
  lemma InsetTexCoordsBounds(size: IVec3, i: int)
    requires !Degenerate(size)
    requires 0 <= i < 8
    ensures size.x > 0 ==> WithinInset(InsetTexCoords(size)[i].x, size.x)
    ensures size.y > 0 ==> WithinInset(InsetTexCoords(size)[i].y, size.y)
    ensures size.z > 0 ==> WithinInset(InsetTexCoords(size)[i].z, size.z)
    ensures size.x > 0 ==> Abs(InsetTexCoords(size)[i].x - BoxVertices(UnitBox)[i].x) == HalfTexel(size.x)
    ensures size.y > 0 ==> Abs(InsetTexCoords(size)[i].y - BoxVertices(UnitBox)[i].y) == HalfTexel(size.y)
    ensures size.z > 0 ==> Abs(InsetTexCoords(size)[i].z - BoxVertices(UnitBox)[i].z) == HalfTexel(size.z)
  {
    if size.x > 0 { HalfTexelRange(size.x); }
    if size.y > 0 { HalfTexelRange(size.y); }
    if size.z > 0 { HalfTexelRange(size.z); }
  }

  /** The inset coordinates follow the vertex order of setBox (z-max face on
      corners 0-3), not the order of the default texture coordinates. */
  lemma InsetTexCoordsLayout(size: IVec3)
    requires !Degenerate(size)
    ensures forall i, j :: 0 <= i < 4 && j == i + 4 ==>
      && InsetTexCoords(size)[i].z == 1.0 - HalfTexel(size.z)
      && InsetTexCoords(size)[j].z == HalfTexel(size.z)
      && InsetTexCoords(size)[j].x == InsetTexCoords(size)[i].x
      && InsetTexCoords(size)[j].y == InsetTexCoords(size)[i].y
    ensures forall i :: 0 <= i < 8 ==>
      && InsetTexCoords(size)[i].x == (if BoxVertices(UnitBox)[i].x == 1.0 then 1.0 - HalfTexel(size.x) else HalfTexel(size.x))
      && InsetTexCoords(size)[i].y == (if BoxVertices(UnitBox)[i].y == 1.0 then 1.0 - HalfTexel(size.y) else HalfTexel(size.y))
      && InsetTexCoords(size)[i].z == (if BoxVertices(UnitBox)[i].z == 1.0 then 1.0 - HalfTexel(size.z) else HalfTexel(size.z))
  {
    forall i | 0 <= i < 8
      ensures InsetTexCoords(size)[i] == Corner(InsetLow(size), InsetHigh(size), i)
      ensures BoxVertices(UnitBox)[i] == Corner(UnitBox.minCorner, UnitBox.maxCorner, i)
    {
    }
  }
}
