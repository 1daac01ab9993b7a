/** The oval outline: a big circle, a small circle and two tangent arcs joining them,
    and the oval plot extruded from it. */
module Ovals {
  import opened Geometry
  import opened Primitives

  /** The oval is never wider than 1.3 times its length. */
  function ClampWidth(width: real, length: real): (w: real)
    ensures w <= width && w <= 1.3 * length
    ensures w == width || w == 1.3 * length
  {
    if width > 1.3 * length then 1.3 * length else width
  }

  /** Clamping twice is clamping once, so the width an oval plot stores is drawn as it is. */
  lemma ClampIdempotent(width: real, length: real)
    ensures ClampWidth(ClampWidth(width, length), length) == ClampWidth(width, length)
  {
  }

  /** A width not above the bound is kept and a wider one is cut to the bound. */
  lemma ClampIsMin(width: real, length: real)
    ensures width <= 1.3 * length ==> ClampWidth(width, length) == width
    ensures width > 1.3 * length ==> ClampWidth(width, length) == 1.3 * length
  {
  }

  /** The numbers an oval is built from: the big radius R = length / 2, the small radius
      r = R / 2, the offset a = width - R - r of the small circle's centre, and the
      y offset and radius of the two joining arcs. */
  datatype Layout = Layout(bigRadius: real, smallRadius: real, offset: real,
                           arcCenterY: real, arcRadius: real)

  /** The radii are a half and a quarter of the length and the small circle sits
      clamped width - 3 length / 4 along x. */
  function OvalLayout(m: Mathlib, width: real, length: real): (p: Layout)
    ensures p.bigRadius == length / 2.0 && p.smallRadius == length / 4.0
    ensures p.offset == ClampWidth(width, length) - 3.0 * length / 4.0
  {
    var w := ClampWidth(width, length);
    var R := length / 2.0;
    var r := R / 2.0;
    var a := w - R - r;
    Layout(R, r, a, ArcCenterY(m, R, r, a), ArcRadius(m, R, r, a))
  }

  /** The y offset of the joining arcs' centres, (a^2 - (R - r)^2) / (2 (R - r)): the
      value y with y * 2 (R - r) = a^2 - (R - r)^2, or the float value of a division by
      zero when R = r. */
  function ArcCenterY(m: Mathlib, R: real, r: real, a: real): (y: real)
    ensures R != r ==> y * (2.0 * (R - r)) == a * a - (R - r) * (R - r)
    ensures R == r ==> y == m.divByZero(a * a)
  {
    assert R == r ==> a * a - (R - r) * (R - r) == a * a;
    Quot(m, a * a - (R - r) * (R - r), 2.0 * (R - r))
  }

  /** The radius of the joining arcs, (R^2 - r^2 + a^2) / (2 (R - r)): the value f with
      f * 2 (R - r) = R^2 - r^2 + a^2, or the float value of a division by zero when R = r. */
  function ArcRadius(m: Mathlib, R: real, r: real, a: real): (f: real)
    ensures R != r ==> f * (2.0 * (R - r)) == R * R - r * r + a * a
    ensures R == r ==> f == m.divByZero(a * a)
  {
    assert R == r ==> R * R - r * r + a * a == a * a;
    Quot(m, R * R - r * r + a * a, 2.0 * (R - r))
  }

  /** One sector drawn by the oval: radius, centre, sweep and start angle. */
  datatype Arc = Arc(radius: real, center: Point, drawAngle: real, startAngle: real)

  function ArcPoints(m: Mathlib, arc: Arc): seq<Point> {
    SectorPoints(m, arc.radius, arc.center, arc.drawAngle, arc.startAngle)
  }

  function ArcMesh(m: Mathlib, arc: Arc): Mesh {
    SectorMesh(m, arc.radius, arc.center, arc.drawAngle, arc.startAngle)
  }

  /** The four sectors of an oval in drawing order: the big circle, the small circle,
      the arc below and its mirror image above. */
  function OvalArcs(m: Mathlib, width: real, length: real, center: Point): (arcs: seq<Arc>)
    ensures |arcs| == 4
    ensures arcs[0] == Arc(length / 2.0, center, 2.0 * Pi, 0.0)
    ensures arcs[1] == Arc(length / 4.0, Point(center.x + ClampWidth(width, length) - 3.0 * length / 4.0, center.y, center.z), 2.0 * Pi, 0.0)
    ensures arcs[2].center.x == center.x && arcs[3].center.x == center.x
    ensures arcs[2].center.z == center.z && arcs[3].center.z == center.z
    ensures arcs[2].center.y - center.y == center.y - arcs[3].center.y
    ensures arcs[3].radius == arcs[2].radius
    ensures arcs[3].drawAngle == -arcs[2].drawAngle && arcs[3].startAngle == -arcs[2].startAngle
  {
    var p := OvalLayout(m, width, length);
    var drawAngle := m.atan(Quot(m, p.offset, p.arcCenterY));
    var startAngle := m.atan(Quot(m, p.arcCenterY, p.offset));
    [Arc(p.bigRadius, center, 2.0 * Pi, 0.0),
     Arc(p.smallRadius, Point(p.offset + center.x, center.y, center.z), 2.0 * Pi, 0.0),
     Arc(p.arcRadius, Point(center.x, -p.arcCenterY + center.y, center.z), drawAngle, startAngle),
     Arc(p.arcRadius, Point(center.x, p.arcCenterY + center.y, center.z), -drawAngle, -startAngle)]
  }

  function OvalPoints(m: Mathlib, width: real, length: real, center: Point): (ps: seq<Point>)
    ensures |ps| == 404
  {
    var arcs := OvalArcs(m, width, length, center);
    ArcPoints(m, arcs[0]) + ArcPoints(m, arcs[1]) + ArcPoints(m, arcs[2]) + ArcPoints(m, arcs[3])
  }

  function OvalMeshes(m: Mathlib, width: real, length: real, center: Point): seq<Mesh> {
    var arcs := OvalArcs(m, width, length, center);
    [ArcMesh(m, arcs[0]), ArcMesh(m, arcs[1]), ArcMesh(m, arcs[2]), ArcMesh(m, arcs[3])]
  }

  function Square(x: real): real {
    x * x
  }

  /** Squared distance between two points of the same plane z. */
  function PlanarDist2(p: Point, q: Point): real {
    Square(p.x - q.x) + Square(p.y - q.y)
  }

  /** The tangent-arc identities: for a non-zero length the joining arc's radius is its
      centre offset plus R, and the square of its radius minus r is a^2 plus the square
      of its centre offset. */
  lemma TangentArcAlgebra(m: Mathlib, width: real, length: real)
    requires length != 0.0
    ensures var p := OvalLayout(m, width, length);
      p.arcRadius == p.arcCenterY + p.bigRadius &&
      Square(p.arcRadius - p.smallRadius) == Square(p.offset) + Square(p.arcCenterY)
  {
    var p := OvalLayout(m, width, length);
    var R, r, a, y, f := p.bigRadius, p.smallRadius, p.offset, p.arcCenterY, p.arcRadius;
    var d := R - r;
    assert d == length / 4.0;
    assert y * (2.0 * d) == a * a - d * d;
    assert f * (2.0 * d) == R * R - r * r + a * a;
    RadiusIsOffsetPlusR(R, r, a, y, f);
    assert f - r == y + d;
    ShiftedSquare(y, d, a);
  }

  lemma RadiusIsOffsetPlusR(R: real, r: real, a: real, y: real, f: real)
    requires r == R / 2.0 && R != 0.0
    requires y * (2.0 * (R - r)) == a * a - (R - r) * (R - r)
    requires f * (2.0 * (R - r)) == R * R - r * r + a * a
    ensures f == y + R
  {
    var d := R - r;
    assert d == r;
    assert (f - y - R) * (2.0 * d) == f * (2.0 * d) - y * (2.0 * d) - R * (2.0 * d);
    assert R * R - r * r + d * d - R * (2.0 * d) == 0.0;
    assert (f - y - R) * (2.0 * d) == 0.0;
  }

  lemma ShiftedSquare(y: real, d: real, a: real)
    requires y * (2.0 * d) == a * a - d * d
    ensures Square(y + d) == Square(a) + Square(y)
  {
    assert Square(y + d) == y * y + y * (2.0 * d) + d * d;
  }

  /** Both joining arcs touch both circles from inside: for a non-zero length the
      distance between an arc's centre and a circle's centre is the difference of their
      radii (stated on squares). */
  lemma ArcsTangent(m: Mathlib, width: real, length: real, center: Point)
    requires length != 0.0
    ensures var arcs := OvalArcs(m, width, length, center);
      forall j, i :: 2 <= j < 4 && 0 <= i < 2 ==>
        PlanarDist2(arcs[j].center, arcs[i].center) == Square(arcs[j].radius - arcs[i].radius)
  {
    var p := OvalLayout(m, width, length);
    var arcs := OvalArcs(m, width, length, center);
    TangentArcAlgebra(m, width, length);
    assert Square(p.arcRadius - p.bigRadius) == Square(p.arcCenterY);
    assert Square(-p.arcCenterY) == Square(p.arcCenterY);
    assert Square(-p.offset) == Square(p.offset);
    forall j, i | 2 <= j < 4 && 0 <= i < 2
      ensures PlanarDist2(arcs[j].center, arcs[i].center) == Square(arcs[j].radius - arcs[i].radius)
    {
      var dx, dy := arcs[j].center.x - arcs[i].center.x, arcs[j].center.y - arcs[i].center.y;
      if i == 0 {
        assert dx == 0.0;
        assert dy == p.arcCenterY || dy == -p.arcCenterY;
      } else {
        assert dx == -p.offset;
        assert dy == p.arcCenterY || dy == -p.arcCenterY;
      }
    }
  }

  /** The oval is its four sectors in drawing order: 404 points, the big circle around the
      centre, the small circle around (cx + a, cy, cz), then the lower arc and the upper arc,
      which share one radius and have mirrored centres and negated angles. */
  lemma OvalShape(m: Mathlib, width: real, length: real, center: Point)
    ensures var p := OvalLayout(m, width, length);
      var arcs := OvalArcs(m, width, length, center);
      var ps := OvalPoints(m, width, length, center);
      |ps| == 404 && |OvalMeshes(m, width, length, center)| == 4 &&
      ps[..101] == SectorPoints(m, length / 2.0, center, 2.0 * Pi, 0.0) &&
      ps[101..202] == SectorPoints(m, length / 4.0, Point(center.x + p.offset, center.y, center.z), 2.0 * Pi, 0.0) &&
      ps[202..303] == ArcPoints(m, arcs[2]) && ps[303..] == ArcPoints(m, arcs[3]) &&
      p.offset == ClampWidth(width, length) - 3.0 * length / 4.0 &&
      arcs[2].center == Point(center.x, center.y - p.arcCenterY, center.z) &&
      arcs[3].center == Point(center.x, center.y + p.arcCenterY, center.z) &&
      arcs[3].radius == arcs[2].radius &&
      arcs[3].drawAngle == -arcs[2].drawAngle && arcs[3].startAngle == -arcs[2].startAngle
  {
    var arcs := OvalArcs(m, width, length, center);
    SectorShape(m, arcs[0].radius, arcs[0].center, arcs[0].drawAngle, arcs[0].startAngle);
    SectorShape(m, arcs[1].radius, arcs[1].center, arcs[1].drawAngle, arcs[1].startAngle);
    SectorShape(m, arcs[2].radius, arcs[2].center, arcs[2].drawAngle, arcs[2].startAngle);
    SectorShape(m, arcs[3].radius, arcs[3].center, arcs[3].drawAngle, arcs[3].startAngle);
    assert arcs[1].center == Point(center.x + OvalLayout(m, width, length).offset, center.y, center.z);
  }

  /** A zero length makes the arc centre formula divide by 2 (R - r) = 0. */
  lemma ZeroLengthCenterDivides(m: Mathlib, width: real, length: real)
    ensures var p := OvalLayout(m, width, length);
      length == 0.0 ==> p.arcCenterY == m.divByZero(Square(p.offset))
  {
    var p := OvalLayout(m, width, length);
    if length == 0.0 {
      assert p.bigRadius == 0.0 && p.smallRadius == 0.0;
      assert ArcCenterY(m, 0.0, 0.0, p.offset) == m.divByZero(Square(p.offset));
      assert p.arcCenterY == ArcCenterY(m, p.bigRadius, p.smallRadius, p.offset);
      assert ArcCenterY(m, p.bigRadius, p.smallRadius, p.offset) == ArcCenterY(m, 0.0, 0.0, p.offset);
    }
  }

  /** A zero length makes the arc radius formula divide by 2 (R - r) = 0. */
  lemma ZeroLengthRadiusDivides(m: Mathlib, width: real, length: real)
    ensures var p := OvalLayout(m, width, length);
      length == 0.0 ==> p.arcRadius == m.divByZero(Square(p.offset))
  {
    var p := OvalLayout(m, width, length);
    if length == 0.0 {
      assert p.bigRadius == 0.0 && p.smallRadius == 0.0;
      assert ArcRadius(m, 0.0, 0.0, p.offset) == m.divByZero(Square(p.offset));
      assert p.arcRadius == ArcRadius(m, p.bigRadius, p.smallRadius, p.offset);
      assert ArcRadius(m, p.bigRadius, p.smallRadius, p.offset) == ArcRadius(m, 0.0, 0.0, p.offset);
    }
  }

  /** A clamped width equal to the length or to half of it puts the arcs' centres on the
      axis (a^2 = (R - r)^2), so the sweep angle divides a by zero. */
  lemma ArcsOnAxisDivide(m: Mathlib, width: real, length: real, center: Point)
    requires length != 0.0
    requires ClampWidth(width, length) == length || ClampWidth(width, length) == length / 2.0
    ensures var p := OvalLayout(m, width, length);
      p.arcCenterY == 0.0 && OvalArcs(m, width, length, center)[2].drawAngle == m.atan(m.divByZero(p.offset))
  {
    var p := OvalLayout(m, width, length);
    var d := p.bigRadius - p.smallRadius;
    assert d == length / 4.0 && d != 0.0;
    assert p.offset == d || p.offset == -d;
    assert p.offset * p.offset == d * d;
    assert p.arcCenterY * (2.0 * d) == 0.0;
  }

  /** A clamped width of 3 length / 4 puts the small circle at the centre, so the start
      angle divides by a = 0. */
  lemma CentredSmallCircleDivides(m: Mathlib, width: real, length: real, center: Point)
    requires ClampWidth(width, length) == 3.0 * length / 4.0
    ensures var p := OvalLayout(m, width, length);
      p.offset == 0.0 && OvalArcs(m, width, length, center)[2].startAngle == m.atan(m.divByZero(p.arcCenterY))
  {
  }

  /** Moving the centre by d moves every point of the oval by d. */
  lemma OvalTranslation(m: Mathlib, width: real, length: real, center: Point, d: Point)
    ensures OvalPoints(m, width, length, Add(center, d)) == Translate(OvalPoints(m, width, length, center), d)
  {
    var arcs, moved := OvalArcs(m, width, length, center), OvalArcs(m, width, length, Add(center, d));
    forall j | 0 <= j < 4
      ensures ArcPoints(m, moved[j]) == Translate(ArcPoints(m, arcs[j]), d)
    {
      assert moved[j].center == Add(arcs[j].center, d);
      SectorTranslation(m, arcs[j].radius, arcs[j].center, arcs[j].drawAngle, arcs[j].startAngle, d);
    }
    var p0, p1, p2, p3 := ArcPoints(m, arcs[0]), ArcPoints(m, arcs[1]), ArcPoints(m, arcs[2]), ArcPoints(m, arcs[3]);
    TranslateConcat(p0, p1, d);
    TranslateConcat(p0 + p1, p2, d);
    TranslateConcat(p0 + p1 + p2, p3, d);
  }

  /** Draws the four sectors of the oval and returns their points in drawing order. */
  method DrawOval(gl: Renderer, m: Mathlib, width: real, length: real, center: Point)
    returns (result: seq<Point>)
    modifies gl
    ensures result == OvalPoints(m, width, length, center)
    ensures gl.submitted == old(gl.submitted) + OvalMeshes(m, width, length, center)
  {
    ghost var arcs := OvalArcs(m, width, length, center);
    ghost var log := gl.submitted;
    var w := width;
    if w > 1.3 * length {
      w := 1.3 * length;
    }
    var R := length / 2.0;
    var r := R / 2.0;
    var a := w - R - r;
    ghost var p := OvalLayout(m, width, length);
    assert w == ClampWidth(width, length);
    assert R == p.bigRadius && r == p.smallRadius && a == p.offset;
    var res1 := DrawPartialCircle(gl, m, R, center, 2.0 * Pi, 0.0);
    var res2 := DrawPartialCircle(gl, m, r, Point(a + center.x, center.y, center.z), 2.0 * Pi, 0.0);
    assert gl.submitted == log + [ArcMesh(m, arcs[0]), ArcMesh(m, arcs[1])];
    // the lower joining arc
    var firstCenterY := ArcCenterY(m, R, r, a);
    var firstRadius := ArcRadius(m, R, r, a);
    var firstDrawAngle := m.atan(Quot(m, a, firstCenterY));
    var firstStartAngle := m.atan(Quot(m, firstCenterY, a));
    assert firstCenterY == p.arcCenterY && firstRadius == p.arcRadius;
    assert Point(center.x, -firstCenterY + center.y, center.z) == arcs[2].center;
    assert firstDrawAngle == arcs[2].drawAngle;
    assert firstStartAngle == arcs[2].startAngle;
    var res3 := DrawPartialCircle(gl, m, firstRadius, Point(center.x, -firstCenterY + center.y, center.z),
                                  firstDrawAngle, firstStartAngle);
    assert gl.submitted == log + [ArcMesh(m, arcs[0]), ArcMesh(m, arcs[1]), ArcMesh(m, arcs[2])];
    // the upper joining arc, mirrored
    var secondCenterY := firstCenterY;
    var secondRadius := firstRadius;
    var secondDrawAngle := -firstDrawAngle;
    var secondStartAngle := -firstStartAngle;
    var res4 := DrawPartialCircle(gl, m, secondRadius, Point(center.x, secondCenterY + center.y, center.z),
                                  secondDrawAngle, secondStartAngle);
    assert gl.submitted == log + OvalMeshes(m, width, length, center);

    result := PushAll([], res1);
    result := PushAll(result, res2);
    result := PushAll(result, res3);
    result := PushAll(result, res4);
  }

  // ---------------------------------------------------------------------------
  // The oval plot

  /** What an oval plot submits: the upper oval, the lower oval, then one quad per
      outline point, including the quad that closes the loop. */
  function OvalPlotMeshes(m: Mathlib, width: real, length: real, height: real, center: Point): seq<Mesh> {
    var top := OvalPoints(m, width, length, TopCenter(height, center));
    var bottom := OvalPoints(m, width, length, BottomCenter(height, center));
    OvalMeshes(m, width, length, TopCenter(height, center)) +
    OvalMeshes(m, width, length, BottomCenter(height, center)) +
    Stitch(top, bottom, true)
  }

  function OvalPlotPoints(m: Mathlib, width: real, length: real, height: real, center: Point): seq<Point> {
    OvalPoints(m, width, length, TopCenter(height, center)) +
    OvalPoints(m, width, length, BottomCenter(height, center))
  }

  /** The two outlines are the oval around `center` moved by +-height/2 along z; the plot
      submits 8 sectors and 404 quads: quad i joins outline points i and i + 1 for i < 403,
      and the last joins point 403 back to point 0. */
  lemma OvalPlotShape(m: Mathlib, width: real, length: real, height: real, center: Point)
    ensures var outline := OvalPoints(m, width, length, center);
      var top := OvalPoints(m, width, length, TopCenter(height, center));
      var bottom := OvalPoints(m, width, length, BottomCenter(height, center));
      var meshes := OvalPlotMeshes(m, width, length, height, center);
      top == Translate(outline, Point(0.0, 0.0, height / 2.0)) &&
      bottom == Translate(outline, Point(0.0, 0.0, -height / 2.0)) &&
      |top| == 404 && |bottom| == 404 &&
      OvalPlotPoints(m, width, length, height, center) == top + bottom &&
      |meshes| == 412 &&
      (forall i :: 0 <= i < 403 ==>
        meshes[8 + i] == Tetragon(top[i], top[i + 1], bottom[i], bottom[i + 1])) &&
      meshes[411] == Tetragon(top[403], top[0], bottom[403], bottom[0])
  {
    OvalPlotOutlines(m, width, length, height, center);
    var top := OvalPoints(m, width, length, TopCenter(height, center));
    var bottom := OvalPoints(m, width, length, BottomCenter(height, center));
    StitchQuads(top, bottom);
    StitchedAfter(OvalMeshes(m, width, length, TopCenter(height, center)) +
                  OvalMeshes(m, width, length, BottomCenter(height, center)), Stitch(top, bottom, true), top, bottom);
  }

  /** The upper and lower outlines are the oval translated by +-height/2 along z. */
  lemma OvalPlotOutlines(m: Mathlib, width: real, length: real, height: real, center: Point)
    ensures var outline := OvalPoints(m, width, length, center);
      OvalPoints(m, width, length, TopCenter(height, center)) == Translate(outline, Point(0.0, 0.0, height / 2.0)) &&
      OvalPoints(m, width, length, BottomCenter(height, center)) == Translate(outline, Point(0.0, 0.0, -height / 2.0))
  {
    OvalTranslation(m, width, length, center, Point(0.0, 0.0, height / 2.0));
    OvalTranslation(m, width, length, center, Point(0.0, 0.0, -height / 2.0));
    assert Add(center, Point(0.0, 0.0, height / 2.0)) == TopCenter(height, center);
    assert Add(center, Point(0.0, 0.0, -height / 2.0)) == BottomCenter(height, center);
  }

  /** Quads placed after the 8 sectors of the two ovals: quad i sits at position 8 + i. */
  lemma StitchedAfter(sectors: seq<Mesh>, walls: seq<Mesh>, top: seq<Point>, bottom: seq<Point>)
    requires |sectors| == 8 && |walls| == 404 && |top| == |bottom| == 404
    requires forall i :: 0 <= i < 403 ==> walls[i] == Tetragon(top[i], top[i + 1], bottom[i], bottom[i + 1])
    requires walls[403] == Tetragon(top[403], top[0], bottom[403], bottom[0])
    ensures var meshes := sectors + walls;
      |meshes| == 412 &&
      (forall i :: 0 <= i < 403 ==> meshes[8 + i] == Tetragon(top[i], top[i + 1], bottom[i], bottom[i + 1])) &&
      meshes[411] == Tetragon(top[403], top[0], bottom[403], bottom[0])
  {
    var meshes := sectors + walls;
    forall i | 0 <= i < 403
      ensures meshes[8 + i] == Tetragon(top[i], top[i + 1], bottom[i], bottom[i + 1])
    {
      assert meshes[8 + i] == walls[i];
    }
  }

  /** Draws the upper and the lower oval, the 403 open quads between them and the
      closing quad, and returns the upper outline followed by the lower one. */
  method DrawOvalPlot(gl: Renderer, m: Mathlib, width: real, length: real, height: real, center: Point)
    returns (result: seq<Point>)
    modifies gl
    ensures result == OvalPlotPoints(m, width, length, height, center)
    ensures gl.submitted == old(gl.submitted) + OvalPlotMeshes(m, width, length, height, center)
  {
    ghost var log := gl.submitted;
    ghost var top, bottom := TopCenter(height, center), BottomCenter(height, center);
    var res1 := DrawOval(gl, m, width, length, Point(center.x, center.y, center.z + height / 2.0));
    assert res1 == OvalPoints(m, width, length, top);
    var res2 := DrawOval(gl, m, width, length, Point(center.x, center.y, center.z - height / 2.0));
    assert res2 == OvalPoints(m, width, length, bottom);
    ghost var ovals := gl.submitted;
    ghost var sectors := OvalMeshes(m, width, length, top) + OvalMeshes(m, width, length, bottom);
    assert ovals == log + sectors;
    DrawWalls(gl, res1, res2);
    DrawTetragon(gl, res1[|res1| - 1], res1[0], res2[|res2| - 1], res2[0]);
    ghost var walls := Stitch(res1, res2, true);
    assert gl.submitted == ovals + walls;
    AppendAssociative(log, sectors, walls);
    assert sectors + walls == OvalPlotMeshes(m, width, length, height, center);

    result := PushAll([], res1);
    result := PushAll(result, res2);
    assert result == res1 + res2;
  }
}
