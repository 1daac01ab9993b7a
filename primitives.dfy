/** The geometry primitives: the two-triangle quad, the box, the 100-segment sector fan
    and the cylinder.  Each draw submits its buffers to the renderer as it goes and
    returns the vertex positions it built. */
module Primitives {
  import opened Geometry

  // ---------------------------------------------------------------------------
  // Quad ("tetragon")

  /** The mesh of a quad: the four points and the triangles (p1, p2, p3), (p2, p3, p4). */
  function Tetragon(p1: Point, p2: Point, p3: Point, p4: Point): Mesh {
    Mesh([p1, p2, p3, p4], [0, 1, 2, 1, 2, 3])
  }

  /** A quad is two well-formed triangles that share the edge p2-p3. */
  lemma TetragonTriangles(p1: Point, p2: Point, p3: Point, p4: Point)
    ensures var q := Tetragon(p1, p2, p3, p4);
      WellFormed(q) && |q.indices| == 6 &&
      (q.vertices[q.indices[0]], q.vertices[q.indices[1]], q.vertices[q.indices[2]]) == (p1, p2, p3) &&
      (q.vertices[q.indices[3]], q.vertices[q.indices[4]], q.vertices[q.indices[5]]) == (p2, p3, p4)
  {
  }

  method DrawTetragon(gl: Renderer, p1: Point, p2: Point, p3: Point, p4: Point)
    modifies gl
    ensures gl.submitted == old(gl.submitted) + [Tetragon(p1, p2, p3, p4)]
  {
    var vertices := new real[12] [p1.x, p1.y, p1.z,
                                  p2.x, p2.y, p2.z,
                                  p3.x, p3.y, p3.z,
                                  p4.x, p4.y, p4.z];
    var indices := new nat[6] [0, 1, 2,
                               1, 2, 3];
    gl.Submit(vertices, 12, indices, 6);
    ghost var ps := Unflatten(vertices[..12]);
    assert |ps| == 4 && ps[0] == p1 && ps[1] == p2 && ps[2] == p3 && ps[3] == p4;
    assert ps == [p1, p2, p3, p4];
    assert indices[..6] == [0, 1, 2, 1, 2, 3];
  }

  // ---------------------------------------------------------------------------
  // Box ("parallelepiped")

  /** The flat vertex table of a box centred at the origin: x, y, z of each corner. */
  function BoxFlat(width: real, length: real, height: real): (a: seq<real>)
    ensures |a| == 24
  {
    var x, y, z := width / 2.0, length / 2.0, height / 2.0;
    [-x, -y, -z] +
    [x, -y, -z] +
    [-x, y, -z] +
    [x, y, -z] +
    [-x, -y, z] +
    [x, -y, z] +
    [-x, y, z] +
    [x, y, z]
  }

  /** The corner offsets of a box from its centre, in the order of the vertex table. */
  function BoxOffsets(width: real, length: real, height: real): seq<Point> {
    var x, y, z := width / 2.0, length / 2.0, height / 2.0;
    [Point(-x, -y, -z), Point(x, -y, -z), Point(-x, y, -z), Point(x, y, -z),
     Point(-x, -y, z), Point(x, -y, z), Point(-x, y, z), Point(x, y, z)]
  }

  /** Read three numbers at a time, the vertex table is the list of corner offsets. */
  lemma BoxFlatPoints(width: real, length: real, height: real)
    ensures Unflatten(BoxFlat(width, length, height)) == BoxOffsets(width, length, height)
  {
    var o, c := Unflatten(BoxFlat(width, length, height)), BoxOffsets(width, length, height);
    forall k | 0 <= k < 8
      ensures o[k] == c[k]
    {
      BoxFlatCorner(width, length, height, k);
    }
  }

  lemma BoxFlatCorner(width: real, length: real, height: real, k: nat)
    requires k < 8
    ensures Unflatten(BoxFlat(width, length, height))[k] == BoxOffsets(width, length, height)[k]
  {
    var f, o, c := BoxFlat(width, length, height), Unflatten(BoxFlat(width, length, height)), BoxOffsets(width, length, height);
    assert o[k] == Point(f[3 * k], f[3 * k + 1], f[3 * k + 2]);
    if k == 0 { assert f[0] == c[0].x && f[1] == c[0].y && f[2] == c[0].z; }
    else if k == 1 { assert f[3] == c[1].x && f[4] == c[1].y && f[5] == c[1].z; }
    else if k == 2 { assert f[6] == c[2].x && f[7] == c[2].y && f[8] == c[2].z; }
    else if k == 3 { assert f[9] == c[3].x && f[10] == c[3].y && f[11] == c[3].z; }
    else if k == 4 { assert f[12] == c[4].x && f[13] == c[4].y && f[14] == c[4].z; }
    else if k == 5 { assert f[15] == c[5].x && f[16] == c[5].y && f[17] == c[5].z; }
    else if k == 6 { assert f[18] == c[6].x && f[19] == c[6].y && f[20] == c[6].z; }
    else { assert f[21] == c[7].x && f[22] == c[7].y && f[23] == c[7].z; }
  }

  function BoxCorners(width: real, length: real, height: real, center: Point): seq<Point> {
    Translate(BoxOffsets(width, length, height), center)
  }

  /** The fixed triangle table of the box: two triangles per face, one face per row. */
  const BoxIndices: seq<nat> :=
    [0, 1, 2,  1, 2, 3] +
    [4, 5, 6,  5, 6, 7] +
    [0, 1, 4,  1, 4, 5] +
    [2, 3, 6,  3, 6, 7] +
    [0, 2, 4,  2, 4, 6] +
    [1, 3, 5,  3, 5, 7]

  function BoxMesh(width: real, length: real, height: real, center: Point): Mesh {
    Mesh(BoxCorners(width, length, height, center), BoxIndices)
  }

  /** The local vertex buffer of a box: the corner table around the origin. */
  method NewBoxVertices(width: real, length: real, height: real) returns (vertices: array<real>)
    ensures fresh(vertices) && vertices[..] == BoxFlat(width, length, height)
  {
    var x, y, z := width / 2.0, length / 2.0, height / 2.0;
    vertices := new real[24] [-x, -y, -z,
                              x, -y, -z,
                              -x, y, -z,
                              x, y, -z,
                              -x, -y, z,
                              x, -y, z,
                              -x, y, z,
                              x, y, z];
  }

  /** The local index buffer of a box: the fixed triangle table. */
  method NewBoxIndices() returns (indices: array<nat>)
    ensures fresh(indices) && indices[..] == BoxIndices
  {
    indices := new nat[36] [0, 1, 2,  1, 2, 3,
                            4, 5, 6,  5, 6, 7,
                            0, 1, 4,  1, 4, 5,
                            2, 3, 6,  3, 6, 7,
                            0, 2, 4,  2, 4, 6,
                            1, 3, 5,  3, 5, 7];
  }

  /** Adds the centre to every point of a flat vertex buffer, in place (the loop that
      both the box and the sector run over their buffers). */
  method MoveBuffer(vertices: array<real>, center: Point)
    requires vertices.Length % 3 == 0
    modifies vertices
    ensures Unflatten(vertices[..]) == Translate(Unflatten(old(vertices[..])), center)
  {
    ghost var init := vertices[..];
    var i := 0;
    while i < vertices.Length
      invariant 0 <= i <= vertices.Length && i % 3 == 0
      invariant forall n :: 0 <= n < vertices.Length ==>
        vertices[n] == if n < i then init[n] + Coord(center, n % 3) else init[n]
    {
      vertices[i] := vertices[i] + center.x;
      vertices[i + 1] := vertices[i + 1] + center.y;
      vertices[i + 2] := vertices[i + 2] + center.z;
      i := i + 3;
    }
    UnflattenMoved(init, vertices[..], center);
  }

  /** The points of a flat vertex buffer, pushed one by one onto the result. */
  method BufferPoints(vertices: array<real>) returns (result: seq<Point>)
    requires vertices.Length % 3 == 0
    ensures result == Unflatten(vertices[..])
  {
    result := [];
    var i := 0;
    while i < vertices.Length
      invariant 0 <= i <= vertices.Length && i % 3 == 0
      invariant |result| == i / 3
      invariant forall k :: 0 <= k < i / 3 ==> result[k] == Point(vertices[3 * k], vertices[3 * k + 1], vertices[3 * k + 2])
    {
      result := result + [Point(vertices[i], vertices[i + 1], vertices[i + 2])];
      i := i + 3;
    }
  }

  method DrawParallelepiped(gl: Renderer, width: real, length: real, height: real, center: Point)
    returns (result: seq<Point>)
    modifies gl
    ensures result == BoxCorners(width, length, height, center)
    ensures gl.submitted == old(gl.submitted) + [BoxMesh(width, length, height, center)]
  {
    var vertices := NewBoxVertices(width, length, height);
    BoxFlatPoints(width, length, height);
    MoveBuffer(vertices, center);
    result := BufferPoints(vertices);
    var indices := NewBoxIndices();
    gl.Submit(vertices, 24, indices, 36);
    assert vertices[..24] == vertices[..];
    assert indices[..36] == indices[..];
  }

  /** Bit `b` (0, 1 or 2) of a corner number. */
  function Bit(k: nat, b: nat): nat {
    if b == 0 then k % 2 else if b == 1 then (k / 2) % 2 else (k / 4) % 2
  }

  /** `half` on the side where the bit is set, `-half` on the other. */
  function Side(bit: nat, half: real): real {
    if bit == 1 then half else -half
  }

  /** Corner k of a box is the centre plus (+-w/2, +-l/2, +-h/2), where bit 0 of k
      picks +x, bit 1 picks +y and bit 2 picks +z. */
  lemma BoxCornerBits(width: real, length: real, height: real, center: Point, k: nat)
    requires k < 8
    ensures |BoxCorners(width, length, height, center)| == 8
    ensures BoxCorners(width, length, height, center)[k] ==
      Point(center.x + Side(Bit(k, 0), width / 2.0),
            center.y + Side(Bit(k, 1), length / 2.0),
            center.z + Side(Bit(k, 2), height / 2.0))
  {
    var x, y, z := width / 2.0, length / 2.0, height / 2.0;
    var corners := BoxOffsets(width, length, height);
    assert corners[k] == Point(Side(Bit(k, 0), x), Side(Bit(k, 1), y), Side(Bit(k, 2), z)) by {
      if k == 0 {
        assert corners[0] == Point(Side(Bit(0, 0), x), Side(Bit(0, 1), y), Side(Bit(0, 2), z));
      } else if k == 1 {
        assert corners[1] == Point(Side(Bit(1, 0), x), Side(Bit(1, 1), y), Side(Bit(1, 2), z));
      } else if k == 2 {
        assert corners[2] == Point(Side(Bit(2, 0), x), Side(Bit(2, 1), y), Side(Bit(2, 2), z));
      } else if k == 3 {
        assert corners[3] == Point(Side(Bit(3, 0), x), Side(Bit(3, 1), y), Side(Bit(3, 2), z));
      } else if k == 4 {
        assert corners[4] == Point(Side(Bit(4, 0), x), Side(Bit(4, 1), y), Side(Bit(4, 2), z));
      } else if k == 5 {
        assert corners[5] == Point(Side(Bit(5, 0), x), Side(Bit(5, 1), y), Side(Bit(5, 2), z));
      } else if k == 6 {
        assert corners[6] == Point(Side(Bit(6, 0), x), Side(Bit(6, 1), y), Side(Bit(6, 2), z));
      } else {
        assert corners[7] == Point(Side(Bit(7, 0), x), Side(Bit(7, 1), y), Side(Bit(7, 2), z));
      }
    }
  }

  /** Moving the centre by d moves every corner by d. */
  lemma BoxTranslation(width: real, length: real, height: real, center: Point, d: Point)
    ensures BoxCorners(width, length, height, Add(center, d)) ==
            Translate(BoxCorners(width, length, height, center), d)
  {
  }

  /** The corners of triangle t of the table. */
  function BoxTriangle(t: nat): (nat, nat, nat)
    requires t < 12
  {
    (BoxIndices[3 * t], BoxIndices[3 * t + 1], BoxIndices[3 * t + 2])
  }

  /** The triangles of the front and back faces (z = -h/2 and z = +h/2). */
  lemma BoxTrianglesZ()
    ensures BoxTriangle(0) == (0, 1, 2) && BoxTriangle(1) == (1, 2, 3)
    ensures BoxTriangle(2) == (4, 5, 6) && BoxTriangle(3) == (5, 6, 7)
  {
  }

  /** The triangles of the bottom and top faces (y = -l/2 and y = +l/2). */
  lemma BoxTrianglesY()
    ensures BoxTriangle(4) == (0, 1, 4) && BoxTriangle(5) == (1, 4, 5)
    ensures BoxTriangle(6) == (2, 3, 6) && BoxTriangle(7) == (3, 6, 7)
  {
  }

  /** The triangles of the left and right faces (x = -w/2 and x = +w/2). */
  lemma BoxTrianglesX()
    ensures BoxTriangle(8) == (0, 2, 4) && BoxTriangle(9) == (2, 4, 6)
    ensures BoxTriangle(10) == (1, 3, 5) && BoxTriangle(11) == (3, 5, 7)
  {
  }

  /** The three corners of triangle t of the table all have the same bit b. */
  predicate SharesBit(t: nat, b: nat)
    requires t < 12
  {
    var (i, j, k) := BoxTriangle(t);
    Bit(i, b) == Bit(j, b) && Bit(j, b) == Bit(k, b)
  }

  /** Triangle t of the table lies on the face where bit b of the corner number is v. */
  predicate OnFace(t: nat, b: nat, v: nat)
    requires t < 12
  {
    SharesBit(t, b) && Bit(BoxTriangle(t).0, b) == v
  }

  function Indicator(c: bool): nat {
    if c then 1 else 0
  }

  /** The number of triangles of the table lying on face (b, v). */
  function CountOnFace(b: nat, v: nat): nat {
    Indicator(OnFace(0, b, v)) + Indicator(OnFace(1, b, v)) + Indicator(OnFace(2, b, v)) +
    Indicator(OnFace(3, b, v)) + Indicator(OnFace(4, b, v)) + Indicator(OnFace(5, b, v)) +
    Indicator(OnFace(6, b, v)) + Indicator(OnFace(7, b, v)) + Indicator(OnFace(8, b, v)) +
    Indicator(OnFace(9, b, v)) + Indicator(OnFace(10, b, v)) + Indicator(OnFace(11, b, v))
  }

  /** Every entry of the table names one of the 8 corners; the table is 12 triangles, so
      every box is a well-formed mesh. */
  lemma BoxIndexBounds(width: real, length: real, height: real, center: Point)
    ensures |BoxIndices| == 36
    ensures forall i :: 0 <= i < 36 ==> BoxIndices[i] < 8
    ensures WellFormed(BoxMesh(width, length, height, center))
  {
    BoxCornerBits(width, length, height, center, 0);
  }

  /** Each triangle of the table has three distinct corners, and exactly one bit of the
      corner number is common to all three: the triangle lies on exactly one face. */
  lemma BoxTriangleOnOneFace(t: nat)
    requires t < 12
    ensures BoxTriangle(t).0 != BoxTriangle(t).1 && BoxTriangle(t).1 != BoxTriangle(t).2 &&
            BoxTriangle(t).0 != BoxTriangle(t).2
    ensures Indicator(SharesBit(t, 0)) + Indicator(SharesBit(t, 1)) + Indicator(SharesBit(t, 2)) == 1
  {
    BoxTrianglesZ(); BoxTrianglesY(); BoxTrianglesX();
    if t == 0 {} else if t == 1 {} else if t == 2 {} else if t == 3 {}
    else if t == 4 {} else if t == 5 {} else if t == 6 {} else if t == 7 {}
    else if t == 8 {} else if t == 9 {} else if t == 10 {} else {}
  }

  /** The faces x = -w/2 and x = +w/2 (bit 0 of the corner number is 0, resp. 1) each
      carry exactly two triangles of the table.  By BoxTrianglesX these are the two halves
      of the face split along a shared diagonal, so together they cover it. */
  lemma BoxFacesX()
    ensures CountOnFace(0, 0) == 2 && CountOnFace(0, 1) == 2
  {
    assert Bit(0, 0) == 0 && Bit(1, 0) == 1 && Bit(2, 0) == 0 && Bit(3, 0) == 1;
    assert Bit(4, 0) == 0 && Bit(5, 0) == 1 && Bit(6, 0) == 0 && Bit(7, 0) == 1;
    assert !OnFace(0, 0, 0) && !OnFace(0, 0, 1) && !OnFace(1, 0, 0) && !OnFace(1, 0, 1) &&
           !OnFace(2, 0, 0) && !OnFace(2, 0, 1) && !OnFace(3, 0, 0) && !OnFace(3, 0, 1) by {
      BoxTrianglesZ();
    }
    assert !OnFace(4, 0, 0) && !OnFace(4, 0, 1) && !OnFace(5, 0, 0) && !OnFace(5, 0, 1) &&
           !OnFace(6, 0, 0) && !OnFace(6, 0, 1) && !OnFace(7, 0, 0) && !OnFace(7, 0, 1) by {
      BoxTrianglesY();
    }
    assert OnFace(8, 0, 0) && !OnFace(8, 0, 1) && OnFace(9, 0, 0) && !OnFace(9, 0, 1) &&
           !OnFace(10, 0, 0) && OnFace(10, 0, 1) && !OnFace(11, 0, 0) && OnFace(11, 0, 1) by {
      BoxTrianglesX();
    }
  }

  /** The faces y = -l/2 and y = +l/2 (bit 1) each carry exactly two triangles. */
  lemma BoxFacesY()
    ensures CountOnFace(1, 0) == 2 && CountOnFace(1, 1) == 2
  {
    assert Bit(0, 1) == 0 && Bit(1, 1) == 0 && Bit(2, 1) == 1 && Bit(3, 1) == 1;
    assert Bit(4, 1) == 0 && Bit(5, 1) == 0 && Bit(6, 1) == 1 && Bit(7, 1) == 1;
    assert !OnFace(0, 1, 0) && !OnFace(0, 1, 1) && !OnFace(1, 1, 0) && !OnFace(1, 1, 1) &&
           !OnFace(2, 1, 0) && !OnFace(2, 1, 1) && !OnFace(3, 1, 0) && !OnFace(3, 1, 1) by {
      BoxTrianglesZ();
    }
    assert OnFace(4, 1, 0) && !OnFace(4, 1, 1) && OnFace(5, 1, 0) && !OnFace(5, 1, 1) &&
           !OnFace(6, 1, 0) && OnFace(6, 1, 1) && !OnFace(7, 1, 0) && OnFace(7, 1, 1) by {
      BoxTrianglesY();
    }
    assert !OnFace(8, 1, 0) && !OnFace(8, 1, 1) && !OnFace(9, 1, 0) && !OnFace(9, 1, 1) &&
           !OnFace(10, 1, 0) && !OnFace(10, 1, 1) && !OnFace(11, 1, 0) && !OnFace(11, 1, 1) by {
      BoxTrianglesX();
    }
  }

  /** The faces z = -h/2 and z = +h/2 (bit 2) each carry exactly two triangles. */
  lemma BoxFacesZ()
    ensures CountOnFace(2, 0) == 2 && CountOnFace(2, 1) == 2
  {
    assert Bit(0, 2) == 0 && Bit(1, 2) == 0 && Bit(2, 2) == 0 && Bit(3, 2) == 0;
    assert Bit(4, 2) == 1 && Bit(5, 2) == 1 && Bit(6, 2) == 1 && Bit(7, 2) == 1;
    assert OnFace(0, 2, 0) && !OnFace(0, 2, 1) && OnFace(1, 2, 0) && !OnFace(1, 2, 1) &&
           !OnFace(2, 2, 0) && OnFace(2, 2, 1) && !OnFace(3, 2, 0) && OnFace(3, 2, 1) by {
      BoxTrianglesZ();
    }
    assert !OnFace(4, 2, 0) && !OnFace(4, 2, 1) && !OnFace(5, 2, 0) && !OnFace(5, 2, 1) &&
           !OnFace(6, 2, 0) && !OnFace(6, 2, 1) && !OnFace(7, 2, 0) && !OnFace(7, 2, 1) by {
      BoxTrianglesY();
    }
    assert !OnFace(8, 2, 0) && !OnFace(8, 2, 1) && !OnFace(9, 2, 0) && !OnFace(9, 2, 1) &&
           !OnFace(10, 2, 0) && !OnFace(10, 2, 1) && !OnFace(11, 2, 0) && !OnFace(11, 2, 1) by {
      BoxTrianglesX();
    }
  }

  // ---------------------------------------------------------------------------
  // Sector fan ("partial circle")

  /** Boundary point k (0-based) of a sector before it is moved to its centre: the
      start point (r cos start, r sin start), rotated k times by drawAngle / 100. */
  function RimPoint(m: Mathlib, r: real, drawAngle: real, startAngle: real, k: nat): Point {
    if k == 0 then Point(m.cos(startAngle) * r, m.sin(startAngle) * r, 0.0)
    else Rotate(m, drawAngle / 100.0, RimPoint(m, r, drawAngle, startAngle, k - 1))
  }

  /** A point of the plane z = 0 rotated by `angle` about the origin. */
  function Rotate(m: Mathlib, angle: real, p: Point): Point {
    Point(m.cos(angle) * p.x - m.sin(angle) * p.y, m.sin(angle) * p.x + m.cos(angle) * p.y, 0.0)
  }

  /** The 101 points of a sector around the origin: the centre, then 100 boundary points. */
  function SectorLocal(m: Mathlib, r: real, drawAngle: real, startAngle: real): seq<Point> {
    seq(101, k requires 0 <= k < 101 => if k == 0 then Origin else RimPoint(m, r, drawAngle, startAngle, k - 1))
  }

  function SectorPoints(m: Mathlib, r: real, center: Point, drawAngle: real, startAngle: real): (ps: seq<Point>)
    ensures |ps| == 101
  {
    Translate(SectorLocal(m, r, drawAngle, startAngle), center)
  }

  /** The flat index list of the fan: (0, k+1, k+2) for k < 99, then the closing (0, 100, 1). */
  function FanIndices(): seq<nat> {
    seq(300, i requires 0 <= i < 300 => if i >= 297 then [0, 100, 1][i - 297] else if i % 3 == 0 then 0 else i / 3 + i % 3)
  }

  function SectorMesh(m: Mathlib, r: real, center: Point, drawAngle: real, startAngle: real): Mesh {
    Mesh(SectorPoints(m, r, center, drawAngle, startAngle), FanIndices())
  }

  /** A sector has 101 points; point 0 is the centre and every point lies in the plane z = center.z. */
  lemma SectorShape(m: Mathlib, r: real, center: Point, drawAngle: real, startAngle: real)
    ensures var ps := SectorPoints(m, r, center, drawAngle, startAngle);
      |ps| == 101 && ps[0] == center &&
      forall k :: 0 <= k < 101 ==> ps[k].z == center.z
  {
  }

  /** The fan is 100 triangles around vertex 0: triangle k is (0, k+1, k+2) for k < 99
      and the last one is (0, 100, 1), whatever the sweep angle; every index is at most 100. */
  lemma FanTriangles(m: Mathlib, r: real, center: Point, drawAngle: real, startAngle: real)
    ensures var fan := SectorMesh(m, r, center, drawAngle, startAngle);
      WellFormed(fan) && |fan.indices| == 300 &&
      (forall i :: 0 <= i < 300 ==> fan.indices[i] <= 100) &&
      (forall k :: 0 <= k < 99 ==> Corners(fan, k) == (0, k + 1, k + 2)) &&
      Corners(fan, 99) == (0, 100, 1)
  {
    var fan := SectorMesh(m, r, center, drawAngle, startAngle);
    forall k | 0 <= k < 99
      ensures Corners(fan, k) == (0, k + 1, k + 2)
    {
      assert (3 * k) % 3 == 0 && (3 * k + 1) % 3 == 1 && (3 * k + 2) % 3 == 2;
      assert (3 * k) / 3 == k && (3 * k + 1) / 3 == k && (3 * k + 2) / 3 == k;
    }
  }

  /** Moving the centre by d moves every point of the sector by d. */
  lemma SectorTranslation(m: Mathlib, r: real, center: Point, drawAngle: real, startAngle: real, d: Point)
    ensures SectorPoints(m, r, Add(center, d), drawAngle, startAngle) ==
            Translate(SectorPoints(m, r, center, drawAngle, startAngle), d)
  {
  }

  /** When the library's cosine and sine satisfy cos^2 + sin^2 = 1, every boundary
      point lies at distance |r| from the centre. */
  lemma {:induction false} RimOnCircle(m: Mathlib, r: real, drawAngle: real, startAngle: real, k: nat)
    requires forall t :: m.cos(t) * m.cos(t) + m.sin(t) * m.sin(t) == 1.0
    ensures PlanarNorm2(RimPoint(m, r, drawAngle, startAngle, k)) == r * r
  {
    if k == 0 {
      var c, s := m.cos(startAngle), m.sin(startAngle);
      assert c * c + s * s == 1.0;
      ScaleNorm(c, s, r);
    } else {
      RimOnCircle(m, r, drawAngle, startAngle, k - 1);
      RotateNorm(m, drawAngle / 100.0, RimPoint(m, r, drawAngle, startAngle, k - 1));
    }
  }

  /** Drawn rim point k (1 to 100) of a sector lies at distance |r| from the sector's centre
      in its plane, when cos^2 + sin^2 = 1. */
  lemma SectorRimOnCircle(m: Mathlib, r: real, center: Point, drawAngle: real, startAngle: real, k: nat)
    requires forall t :: m.cos(t) * m.cos(t) + m.sin(t) * m.sin(t) == 1.0
    requires 1 <= k <= 100
    ensures var q := SectorPoints(m, r, center, drawAngle, startAngle)[k];
      PlanarNorm2(Point(q.x - center.x, q.y - center.y, 0.0)) == r * r
  {
    var p := RimPoint(m, r, drawAngle, startAngle, k - 1);
    RimOnCircle(m, r, drawAngle, startAngle, k - 1);
    var q := SectorPoints(m, r, center, drawAngle, startAngle)[k];
    assert q == Add(p, center);
    assert Point(q.x - center.x, q.y - center.y, 0.0) == Point(p.x, p.y, 0.0);
  }

  /** The squared distance of a point from the z axis. */
  function PlanarNorm2(p: Point): real {
    p.x * p.x + p.y * p.y
  }

  /** A rotation by an angle whose cosine and sine satisfy cos^2 + sin^2 = 1 keeps a
      point's distance from the origin. */
  lemma RotateNorm(m: Mathlib, angle: real, p: Point)
    requires m.cos(angle) * m.cos(angle) + m.sin(angle) * m.sin(angle) == 1.0
    ensures PlanarNorm2(Rotate(m, angle, p)) == PlanarNorm2(p)
  {
    RotationNorm(m.cos(angle), m.sin(angle), p.x, p.y);
  }

  lemma ScaleNorm(c: real, s: real, r: real)
    requires c * c + s * s == 1.0
    ensures (c * r) * (c * r) + (s * r) * (s * r) == r * r
  {
    assert (c * r) * (c * r) + (s * r) * (s * r) == (c * c + s * s) * (r * r);
  }

  lemma RotationNorm(c: real, s: real, x: real, y: real)
    requires c * c + s * s == 1.0
    ensures (c * x - s * y) * (c * x - s * y) + (s * x + c * y) * (s * x + c * y) == x * x + y * y
  {
    assert (c * x - s * y) * (c * x - s * y) == c * c * x * x - 2.0 * c * s * x * y + s * s * y * y;
    assert (s * x + c * y) * (s * x + c * y) == s * s * x * x + 2.0 * c * s * x * y + c * c * y * y;
    assert c * c * x * x + s * s * x * x == (c * c + s * s) * (x * x);
    assert s * s * y * y + c * c * y * y == (c * c + s * s) * (y * y);
  }

  /** The local vertex buffer of a sector: the centre at the origin, the start point, and
      each further boundary point the previous one rotated by drawAngle / 100. */
  method NewSectorVertices(m: Mathlib, r: real, drawAngle: real, startAngle: real) returns (vertices: array<real>)
    ensures fresh(vertices) && vertices.Length == 303
    ensures Unflatten(vertices[..]) == SectorLocal(m, r, drawAngle, startAngle)
  {
    vertices := new real[303];
    vertices[0], vertices[1], vertices[2] := 0.0, 0.0, 0.0;
    vertices[3] := r;
    vertices[4], vertices[5] := 0.0, 0.0;
    // rotate to the start angle
    vertices[3] := m.cos(startAngle) * r;
    vertices[4] := m.sin(startAngle) * r;

    var i := 6;
    ghost var n := 2;
    RimBufferStart(m, r, drawAngle, startAngle, vertices[..]);
    while i < 303
      invariant 2 <= n <= 101 && i == 3 * n
      invariant RimBuffer(m, r, drawAngle, startAngle, vertices[..], n)
    {
      ghost var before := vertices[..];
      SetPoint(vertices, i, Rotate(m, drawAngle / 100.0, Point(vertices[i - 3], vertices[i - 2], vertices[i - 1])));
      RimBufferRotate(m, r, drawAngle, startAngle, before, vertices[..], n);
      i, n := i + 3, n + 1;
    }
    SectorBuffer(m, r, drawAngle, startAngle, vertices[..]);
  }

  /** Stores the coordinates of p at positions i, i + 1, i + 2 of a flat buffer. */
  method SetPoint(vertices: array<real>, i: nat, p: Point)
    requires i + 2 < vertices.Length
    modifies vertices
    ensures vertices[..] == old(vertices[..])[i := p.x][i + 1 := p.y][i + 2 := p.z]
  {
    vertices[i] := p.x;
    vertices[i + 1] := p.y;
    vertices[i + 2] := p.z;
  }

  /** Point k of a flat buffer. */
  function BufferPoint(a: seq<real>, k: nat): Point
    requires 3 * k + 2 < |a|
  {
    Point(a[3 * k], a[3 * k + 1], a[3 * k + 2])
  }

  /** The flat buffer holds the centre at the origin and boundary points 0 .. n - 2. */
  ghost predicate RimBuffer(m: Mathlib, r: real, drawAngle: real, startAngle: real, a: seq<real>, n: nat) {
    |a| == 303 && 1 <= n <= 101 && a[0] == 0.0 && a[1] == 0.0 && a[2] == 0.0 &&
    forall k {:trigger BufferPoint(a, k)} :: 1 <= k < n ==>
      BufferPoint(a, k) == RimPoint(m, r, drawAngle, startAngle, k - 1)
  }

  /** The centre at the origin and the start point rotated to the start angle. */
  lemma RimBufferStart(m: Mathlib, r: real, drawAngle: real, startAngle: real, a: seq<real>)
    requires |a| == 303 && a[0] == 0.0 && a[1] == 0.0 && a[2] == 0.0
    requires a[3] == m.cos(startAngle) * r && a[4] == m.sin(startAngle) * r && a[5] == 0.0
    ensures RimBuffer(m, r, drawAngle, startAngle, a, 2)
  {
    assert BufferPoint(a, 1) == RimPoint(m, r, drawAngle, startAngle, 0);
  }

  lemma RimBufferExtend(m: Mathlib, r: real, drawAngle: real, startAngle: real, a: seq<real>, b: seq<real>, n: nat)
    requires RimBuffer(m, r, drawAngle, startAngle, a, n) && n < 101
    requires |b| == 303 && a[..3 * n] == b[..3 * n]
    requires Point(b[3 * n], b[3 * n + 1], b[3 * n + 2]) == RimPoint(m, r, drawAngle, startAngle, n - 1)
    ensures RimBuffer(m, r, drawAngle, startAngle, b, n + 1)
  {
    forall k | 1 <= k < n + 1
      ensures BufferPoint(b, k) == RimPoint(m, r, drawAngle, startAngle, k - 1)
    {
      if k < n {
        assert BufferPoint(a, k) == RimPoint(m, r, drawAngle, startAngle, k - 1);
        assert a[..3 * n][3 * k] == b[..3 * n][3 * k];
        assert a[..3 * n][3 * k + 1] == b[..3 * n][3 * k + 1];
        assert a[..3 * n][3 * k + 2] == b[..3 * n][3 * k + 2];
      }
    }
  }

  /** One turn of the rotation loop appends the next boundary point to the buffer. */
  lemma RimBufferRotate(m: Mathlib, r: real, drawAngle: real, startAngle: real, a: seq<real>, b: seq<real>, n: nat)
    requires RimBuffer(m, r, drawAngle, startAngle, a, n) && 2 <= n < 101
    requires var p := Rotate(m, drawAngle / 100.0, BufferPoint(a, n - 1));
      b == a[3 * n := p.x][3 * n + 1 := p.y][3 * n + 2 := p.z]
    ensures RimBuffer(m, r, drawAngle, startAngle, b, n + 1)
  {
    assert BufferPoint(a, n - 1) == RimPoint(m, r, drawAngle, startAngle, n - 2);
    assert a[..3 * n] == b[..3 * n];
    RimBufferExtend(m, r, drawAngle, startAngle, a, b, n);
  }

  lemma SectorBuffer(m: Mathlib, r: real, drawAngle: real, startAngle: real, a: seq<real>)
    requires RimBuffer(m, r, drawAngle, startAngle, a, 101)
    ensures Unflatten(a) == SectorLocal(m, r, drawAngle, startAngle)
  {
    var u, local := Unflatten(a), SectorLocal(m, r, drawAngle, startAngle);
    forall k | 0 <= k < 101
      ensures u[k] == local[k]
    {
      assert u[k] == BufferPoint(a, k);
    }
  }

  /** The fan index buffer, filled by the loop that writes (0, j, j+1) with a running
      counter j, then closed by hand with (0, 100, 1). */
  method NewFanIndices() returns (indices: array<nat>)
    ensures fresh(indices) && indices[..] == FanIndices()
  {
    indices := new nat[300];
    var i, j := 0, 1;
    while i < 297
      invariant 0 <= i <= 297 && i % 3 == 0
      invariant j == i / 3 + 1
      invariant forall n :: 0 <= n < i ==> indices[n] == FanIndices()[n]
    {
      indices[i] := 0;
      indices[i + 1] := j;
      j := j + 1;
      indices[i + 2] := j;
      i := i + 3;
    }
    indices[297] := 0;
    indices[298] := 100;
    indices[299] := 1;
    assert forall n :: 0 <= n < 300 ==> indices[n] == FanIndices()[n];
  }

  /** The sector of radius `r` around `center`, swept by drawAngle from startAngle. */
  method DrawPartialCircle(gl: Renderer, m: Mathlib, r: real, center: Point, drawAngle: real, startAngle: real)
    returns (result: seq<Point>)
    modifies gl
    ensures result == SectorPoints(m, r, center, drawAngle, startAngle)
    ensures gl.submitted == old(gl.submitted) + [SectorMesh(m, r, center, drawAngle, startAngle)]
  {
    var vertices := NewSectorVertices(m, r, drawAngle, startAngle);
    MoveBuffer(vertices, center);
    result := BufferPoints(vertices);
    var indices := NewFanIndices();
    gl.Submit(vertices, 303, indices, 300);
    assert vertices[..303] == vertices[..];
    assert indices[..300] == indices[..];
  }

  // ---------------------------------------------------------------------------
  // Side walls and the cylinder

  /** The quads joining two outlines of equal length point by point: one per adjacent
      pair (i, i+1), and, when `wrap` holds, one more joining the last point to the first. */
  function Stitch(top: seq<Point>, bottom: seq<Point>, wrap: bool): seq<Mesh>
    requires |top| == |bottom| > 0
  {
    seq(|top| - 1, i requires 0 <= i < |top| - 1 => Tetragon(top[i], top[i + 1], bottom[i], bottom[i + 1])) +
    (if wrap then [Tetragon(top[|top| - 1], top[0], bottom[|top| - 1], bottom[0])] else [])
  }

  /** With the wrap-around quad the walls are one quad per point: quad i joins point i
      to point i + 1 and the last quad joins the last point back to point 0.  Without it
      they are the first n - 1 of those quads. */
  lemma StitchQuads(top: seq<Point>, bottom: seq<Point>)
    requires |top| == |bottom| > 0
    ensures var n := |top|;
      |Stitch(top, bottom, true)| == n && |Stitch(top, bottom, false)| == n - 1 &&
      Stitch(top, bottom, false) == Stitch(top, bottom, true)[..n - 1] &&
      (forall i :: 0 <= i < n - 1 ==>
        Stitch(top, bottom, true)[i] == Tetragon(top[i], top[i + 1], bottom[i], bottom[i + 1])) &&
      Stitch(top, bottom, true)[n - 1] == Tetragon(top[n - 1], top[0], bottom[n - 1], bottom[0])
  {
  }

  /** The centre of the upper face of a solid of the given height around `center`. */
  function TopCenter(height: real, center: Point): Point {
    Point(center.x, center.y, center.z + height / 2.0)
  }

  /** The centre of the lower face of a solid of the given height around `center`. */
  function BottomCenter(height: real, center: Point): Point {
    Point(center.x, center.y, center.z - height / 2.0)
  }

  /** What a cylinder submits: the top disk, the bottom disk, then 100 side quads. */
  function CylinderMeshes(m: Mathlib, radius: real, height: real, center: Point): seq<Mesh> {
    var top := SectorPoints(m, radius, TopCenter(height, center), 2.0 * Pi, 0.0);
    var bottom := SectorPoints(m, radius, BottomCenter(height, center), 2.0 * Pi, 0.0);
    [SectorMesh(m, radius, TopCenter(height, center), 2.0 * Pi, 0.0),
     SectorMesh(m, radius, BottomCenter(height, center), 2.0 * Pi, 0.0)] +
    Stitch(top, bottom, false)
  }

  /** The two disks of a cylinder are the disk around `center` moved by +-height/2 along z;
      its walls are exactly 100 quads (top[i], top[i+1], bottom[i], bottom[i+1]), with no
      quad joining boundary point 100 back to point 0. */
  lemma CylinderShape(m: Mathlib, radius: real, height: real, center: Point)
    ensures var disk := SectorPoints(m, radius, center, 2.0 * Pi, 0.0);
      var top := SectorPoints(m, radius, TopCenter(height, center), 2.0 * Pi, 0.0);
      var bottom := SectorPoints(m, radius, BottomCenter(height, center), 2.0 * Pi, 0.0);
      top == Translate(disk, Point(0.0, 0.0, height / 2.0)) &&
      bottom == Translate(disk, Point(0.0, 0.0, -height / 2.0)) &&
      |CylinderMeshes(m, radius, height, center)| == 102 &&
      forall i :: 0 <= i < 100 ==>
        CylinderMeshes(m, radius, height, center)[i + 2] == Tetragon(top[i], top[i + 1], bottom[i], bottom[i + 1])
  {
    SectorTranslation(m, radius, center, 2.0 * Pi, 0.0, Point(0.0, 0.0, height / 2.0));
    SectorTranslation(m, radius, center, 2.0 * Pi, 0.0, Point(0.0, 0.0, -height / 2.0));
    assert Add(center, Point(0.0, 0.0, height / 2.0)) == TopCenter(height, center);
    assert Add(center, Point(0.0, 0.0, -height / 2.0)) == BottomCenter(height, center);
  }

  /** The side wall: one tetragon per pair of neighbouring points, without the closing one. */
  method DrawWalls(gl: Renderer, top: seq<Point>, bottom: seq<Point>)
    requires |top| == |bottom| > 0
    modifies gl
    ensures gl.submitted == old(gl.submitted) + Stitch(top, bottom, false)
  {
    ghost var walls := Stitch(top, bottom, false);
    assert |walls| == |top| - 1;
    var i := 0;
    while i < |top| - 1
      invariant 0 <= i <= |top| - 1
      invariant gl.submitted == old(gl.submitted) + walls[..i]
    {
      DrawTetragon(gl, top[i], top[i + 1], bottom[i], bottom[i + 1]);
      assert walls[i] == Tetragon(top[i], top[i + 1], bottom[i], bottom[i + 1]);
      assert walls[..i + 1] == walls[..i] + [walls[i]];
      i := i + 1;
    }
    assert walls[..i] == walls;
  }

  /** `result` with every point of `ps` pushed onto its back. */
  method PushAll(result: seq<Point>, ps: seq<Point>) returns (r: seq<Point>)
    ensures r == result + ps
  {
    r := result;
    var i := 0;
    while i < |ps|
      invariant 0 <= i <= |ps|
      invariant r == result + ps[..i]
    {
      r := r + [ps[i]];
      assert ps[..i + 1] == ps[..i] + [ps[i]];
      i := i + 1;
    }
    assert ps[..i] == ps;
  }

  method DrawCylinder(gl: Renderer, m: Mathlib, radius: real, height: real, center: Point)
    returns (result: seq<Point>)
    modifies gl
    ensures result == SectorPoints(m, radius, TopCenter(height, center), 2.0 * Pi, 0.0) +
                      SectorPoints(m, radius, BottomCenter(height, center), 2.0 * Pi, 0.0)
    ensures gl.submitted == old(gl.submitted) + CylinderMeshes(m, radius, height, center)
  {
    ghost var top, bottom := TopCenter(height, center), BottomCenter(height, center);
    ghost var log := gl.submitted;
    var res1 := DrawPartialCircle(gl, m, radius, Point(center.x, center.y, center.z + height / 2.0), 2.0 * Pi, 0.0);
    assert gl.submitted == log + [SectorMesh(m, radius, top, 2.0 * Pi, 0.0)];
    var res2 := DrawPartialCircle(gl, m, radius, Point(center.x, center.y, center.z - height / 2.0), 2.0 * Pi, 0.0);
    assert gl.submitted == log + [SectorMesh(m, radius, top, 2.0 * Pi, 0.0), SectorMesh(m, radius, bottom, 2.0 * Pi, 0.0)];
    DrawWalls(gl, res1, res2);
    result := PushAll([], res1);
    result := PushAll(result, res2);
  }
}
