/** Assembling the table: the plot once, then one leg template moved to each leg
    position and drawn there; and the objects the console dialogue builds. */
module Assembly {
  import opened Geometry
  import opened Primitives
  import opened Ovals
  import opened Shapes
  import opened Plots

  /** The distance from the plot's edge to a leg's axis: 5 cm plus the leg's own reach,
      so the leg's cross-section keeps at least 5 cm from both edges it faces. */
  function Clearance(profile: Profile): (o: real)
    ensures o - profile.HalfWidth() >= 5.0 && o - profile.HalfLength() >= 5.0
    ensures o - profile.HalfWidth() == 5.0 || o - profile.HalfLength() == 5.0
  {
    5.0 + profile.MaxDist()
  }

  /** The leg centres in drawing order, for a plot of the given kind and size.  Every leg
      hangs below the plot: its centre is half a plot height and half a leg height under
      the plot's mid-plane. */
  function LegCenters(shape: Shape, width: real, length: real, height: real, legHeight: real, offset: real): (cs: seq<Point>)
    ensures shape == Rectangle ==> |cs| == 4
    ensures shape == Oval ==> |cs| == 3
    ensures shape != Rectangle && shape != Oval ==> cs == []
    ensures forall i :: 0 <= i < |cs| ==> cs[i].z + legHeight / 2.0 == -height / 2.0
  {
    var z := -height / 2.0 - legHeight / 2.0;
    if shape == Rectangle then
      [Point(width / 2.0 - offset, length / 2.0 - offset, z),
       Point(-width / 2.0 + offset, length / 2.0 - offset, z),
       Point(width / 2.0 - offset, -length / 2.0 + offset, z),
       Point(-width / 2.0 + offset, -length / 2.0 + offset, z)]
    else if shape == Oval then
      [Point(width - length / 2.0 - offset, 0.0, z),
       Point(0.0, length / 2.0 - offset, z),
       Point(0.0, -length / 2.0 + offset, z)]
    else []
  }

  /** The meshes of one leg drawn at each of `centers` in turn. */
  function LegsMeshes(m: Mathlib, profile: Profile, legHeight: real, centers: seq<Point>): seq<Mesh> {
    if centers == [] then []
    else LegsMeshes(m, profile, legHeight, centers[..|centers| - 1]) + LegMeshes(m, profile, legHeight, centers[|centers| - 1])
  }

  /** On a rectangular plot each leg stands with its axis `offset` in from the two
      nearest edges, the four positions are mirror images of each other, and every
      leg's cross-section keeps at least 5 cm from the plot's edges. */
  lemma RectangleLegsInside(width: real, length: real, height: real, legHeight: real, profile: Profile)
    ensures var o := Clearance(profile);
      var cs := LegCenters(Rectangle, width, length, height, legHeight, o);
      var hx, hy := profile.HalfWidth(), profile.HalfLength();
      cs[0].x == width / 2.0 - o && cs[0].y == length / 2.0 - o &&
      cs[1] == Point(-cs[0].x, cs[0].y, cs[0].z) &&
      cs[2] == Point(cs[0].x, -cs[0].y, cs[0].z) &&
      cs[3] == Point(-cs[0].x, -cs[0].y, cs[0].z) &&
      cs[0].x + hx <= width / 2.0 - 5.0 && cs[0].y + hy <= length / 2.0 - 5.0 &&
      cs[3].x - hx >= -width / 2.0 + 5.0 && cs[3].y - hy >= -length / 2.0 + 5.0
  {
  }

  /** On an oval plot (whose stored width is already clamped) the first leg stands
      `offset` in from the far end of the small circle, on the axis, and the other two
      stand `offset` in from the big circle's top and bottom. */
  lemma OvalLegsPlacement(m: Mathlib, width: real, length: real, height: real, legHeight: real, profile: Profile)
    requires width <= 1.3 * length
    ensures var o := Clearance(profile);
      var cs := LegCenters(Oval, width, length, height, legHeight, o);
      var p := OvalLayout(m, width, length);
      cs[0].x + o == p.offset + p.smallRadius && cs[0].y == 0.0 &&
      cs[1].x == 0.0 && cs[1].y + o == p.bigRadius &&
      cs[2].x == 0.0 && cs[2].y - o == -p.bigRadius
  {
  }

  /** A 100 x 60 plot 3 cm thick on 70 cm legs 10 cm square: the clearance is 10 cm and the
      legs stand at (+-40, +-20) with their centres 36.5 cm below the plot's mid-plane. */
  lemma RectangleTableExample()
    ensures var profile := RectProfile(10.0, 10.0);
      Clearance(profile) == 10.0 &&
      LegCenters(Rectangle, 100.0, 60.0, 3.0, 70.0, Clearance(profile)) ==
        [Point(40.0, 20.0, -36.5), Point(-40.0, 20.0, -36.5), Point(40.0, -20.0, -36.5), Point(-40.0, -20.0, -36.5)]
  {
  }

  /** A rectangular leg contributes one box and a round leg a cylinder of 102 meshes, at
      every position. */
  lemma {:induction false} LegsMeshesCount(m: Mathlib, profile: Profile, legHeight: real, centers: seq<Point>)
    ensures |LegsMeshes(m, profile, legHeight, centers)| ==
            |centers| * (if profile.RectProfile? then 1 else 102)
  {
    if centers != [] {
      LegsMeshesCount(m, profile, legHeight, centers[..|centers| - 1]);
      if profile.CircleProfile? {
        CylinderShape(m, profile.radius, legHeight, centers[|centers| - 1]);
      }
    }
  }

  /** Once the leg is drawn at position k after the legs at positions 0 .. k - 1, the
      legs at positions 0 .. k are in the log. */
  lemma Placed(m: Mathlib, profile: Profile, legHeight: real, cs: seq<Point>, k: nat,
               drawn: seq<Mesh>, before: seq<Mesh>, after: seq<Mesh>)
    requires k < |cs|
    requires before == drawn + LegsMeshes(m, profile, legHeight, cs[..k])
    requires after == before + LegMeshes(m, profile, legHeight, cs[k])
    ensures after == drawn + LegsMeshes(m, profile, legHeight, cs[..k + 1])
  {
    assert cs[..k + 1][..k] == cs[..k];
    AppendAssociative(drawn, LegsMeshes(m, profile, legHeight, cs[..k]), LegMeshes(m, profile, legHeight, cs[k]));
  }

  /** Moves the leg to `c` and draws it there. */
  method PlaceLeg(gl: Renderer, m: Mathlib, leg: LegShape, c: Point)
    modifies gl, leg
    ensures leg.center == c && leg.height == old(leg.height)
    ensures gl.submitted == old(gl.submitted) + LegMeshes(m, leg.profile, leg.height, c)
  {
    leg.SetCenter(c);
    leg.Draw(gl, m);
  }

  /** Draws the whole table: the plot once, then a leg at each leg position in order.
      The leg ends at the last position and keeps its height. */
  method DrawTable(gl: Renderer, m: Mathlib, plot: PlotShape, leg: LegShape)
    requires plot.Valid()
    modifies gl, leg
    ensures var cs := LegCenters(plot.shape, plot.width, plot.length, plot.height, leg.height, Clearance(leg.profile));
      gl.submitted == old(gl.submitted) + plot.Meshes(m) + LegsMeshes(m, leg.profile, leg.height, cs) &&
      leg.center == cs[|cs| - 1]
    ensures leg.height == old(leg.height)
  {
    var offset := 5.0 + leg.MaxDist(); // 50 mm plus the leg's own reach
    if plot.GetShape() == Rectangle {
      DrawRectangularTable(gl, m, plot, leg, offset);
    }
    if plot.GetShape() == Oval {
      DrawOvalTable(gl, m, plot, leg, offset);
    }
  }

  /** Draws the leg at three positions in turn. */
  method PlaceThreeLegs(gl: Renderer, m: Mathlib, leg: LegShape, c0: Point, c1: Point, c2: Point)
    modifies gl, leg
    ensures gl.submitted == old(gl.submitted) + LegsMeshes(m, leg.profile, leg.height, [c0, c1, c2])
    ensures leg.center == c2 && leg.height == old(leg.height)
  {
    ghost var cs := [c0, c1, c2];
    ghost var drawn, prev := gl.submitted, gl.submitted;
    assert cs[..0] == [];
    PlaceLeg(gl, m, leg, c0);
    Placed(m, leg.profile, leg.height, cs, 0, drawn, prev, gl.submitted);
    prev := gl.submitted;
    PlaceLeg(gl, m, leg, c1);
    Placed(m, leg.profile, leg.height, cs, 1, drawn, prev, gl.submitted);
    prev := gl.submitted;
    PlaceLeg(gl, m, leg, c2);
    Placed(m, leg.profile, leg.height, cs, 2, drawn, prev, gl.submitted);
    assert cs[..3] == cs;
  }

  /** Draws the leg at four positions in turn. */
  method PlaceFourLegs(gl: Renderer, m: Mathlib, leg: LegShape, c0: Point, c1: Point, c2: Point, c3: Point)
    modifies gl, leg
    ensures gl.submitted == old(gl.submitted) + LegsMeshes(m, leg.profile, leg.height, [c0, c1, c2, c3])
    ensures leg.center == c3 && leg.height == old(leg.height)
  {
    ghost var cs := [c0, c1, c2, c3];
    ghost var drawn := gl.submitted;
    PlaceThreeLegs(gl, m, leg, c0, c1, c2);
    assert cs[..3] == [c0, c1, c2];
    ghost var prev := gl.submitted;
    PlaceLeg(gl, m, leg, c3);
    Placed(m, leg.profile, leg.height, cs, 3, drawn, prev, gl.submitted);
    assert cs[..4] == cs;
  }

  /** The rectangular branch of `DrawTable`: the plot, then the legs at the four corners. */
  method DrawRectangularTable(gl: Renderer, m: Mathlib, plot: PlotShape, leg: LegShape, offset: real)
    requires plot.Valid() && plot.shape == Rectangle && offset == Clearance(leg.profile)
    modifies gl, leg
    ensures var cs := LegCenters(plot.shape, plot.width, plot.length, plot.height, leg.height, offset);
      gl.submitted == old(gl.submitted) + plot.Meshes(m) + LegsMeshes(m, leg.profile, leg.height, cs) &&
      leg.center == cs[3]
    ensures leg.height == old(leg.height)
  {
    ghost var cs := LegCenters(plot.shape, plot.width, plot.length, plot.height, leg.height, offset);
    var z := -plot.GetHeight() / 2.0 - leg.GetHeight() / 2.0;
    var width, length := plot.GetWidth(), plot.GetLength();
    assert cs == [Point(width / 2.0 - offset, length / 2.0 - offset, z), Point(-width / 2.0 + offset, length / 2.0 - offset, z),
                  Point(width / 2.0 - offset, -length / 2.0 + offset, z), Point(-width / 2.0 + offset, -length / 2.0 + offset, z)];
    plot.Draw(gl, m);
    PlaceFourLegs(gl, m, leg, Point(width / 2.0 - offset, length / 2.0 - offset, z), Point(-width / 2.0 + offset, length / 2.0 - offset, z),
                  Point(width / 2.0 - offset, -length / 2.0 + offset, z), Point(-width / 2.0 + offset, -length / 2.0 + offset, z));
  }

  /** The oval branch of `DrawTable`: the plot, then a leg near the small end and one
      near each side of the big circle. */
  method DrawOvalTable(gl: Renderer, m: Mathlib, plot: PlotShape, leg: LegShape, offset: real)
    requires plot.Valid() && plot.shape == Oval && offset == Clearance(leg.profile)
    modifies gl, leg
    ensures var cs := LegCenters(plot.shape, plot.width, plot.length, plot.height, leg.height, offset);
      gl.submitted == old(gl.submitted) + plot.Meshes(m) + LegsMeshes(m, leg.profile, leg.height, cs) &&
      leg.center == cs[2]
    ensures leg.height == old(leg.height)
  {
    ghost var cs := LegCenters(plot.shape, plot.width, plot.length, plot.height, leg.height, offset);
    var z := -plot.GetHeight() / 2.0 - leg.GetHeight() / 2.0;
    var width, length := plot.GetWidth(), plot.GetLength();
    assert cs == [Point(width - length / 2.0 - offset, 0.0, z), Point(0.0, length / 2.0 - offset, z),
                  Point(0.0, -length / 2.0 + offset, z)];
    plot.Draw(gl, m);
    PlaceThreeLegs(gl, m, leg, Point(width - length / 2.0 - offset, 0.0, z), Point(0.0, length / 2.0 - offset, z),
                   Point(0.0, -length / 2.0 + offset, z));
  }

  /** The cross-section the dialogue builds for an accepted leg shape from the numbers
      typed next: a square of side `first`, a `first` x `second` rectangle, or a circle of
      radius `first`.  A square leg is a rectangular leg and reports RECTANGLE. */
  function LegProfile(s: Shape, first: real, second: real): (p: Profile)
    requires LegShapeAccepted(s)
    ensures s == Circle <==> p.CircleProfile?
    ensures p.Kind() == (if s == Circle then Circle else Rectangle)
    ensures s == Square ==> p.width == p.length
    ensures p.RectProfile? ==> p.width == first && p.length == (if s == Square then first else second)
    ensures p.CircleProfile? ==> p.radius == first
  {
    if s == Square then RectProfile(first, first)
    else if s == Rectangle then RectProfile(first, second)
    else CircleProfile(first)
  }

  /** The console dialogue with its input given as parameters: the plot-shape tokens, the
      plot's width and length, the leg heights, the leg-shape tokens and the one or two
      numbers of the leg's cross-section.  `plotInitial` and `legInitial` stand for the
      shape variables' values before anything is read.  The plot is 3 cm thick and both
      objects are centred at the origin.  When the input runs out before a value is
      accepted the dialogue would go on waiting: the model then returns no plot or no leg. */
  method Input(plotTokens: seq<string>, plotInitial: Shape, plotWidth: real, plotLength: real,
               heights: seq<real>, legTokens: seq<string>, legInitial: Shape, first: real, second: real)
    returns (plot: PlotShape?, leg: LegShape?,
             ghost plotUsed: nat, ghost heightUsed: nat, ghost legUsed: nat, ghost legShape: Shape)
    requires |plotTokens| > 0 && |heights| > 0 && |legTokens| > 0
    // the plot-shape prompt
    ensures 1 <= plotUsed <= |plotTokens|
    ensures forall j :: 1 <= j < plotUsed ==> !PlotShapeAccepted(Replay(plotTokens[..j], plotInitial))
    ensures plot != null <==> PlotShapeAccepted(Replay(plotTokens[..plotUsed], plotInitial))
    ensures plot == null ==> plotUsed == |plotTokens| && heightUsed == 0 && legUsed == 0 && leg == null
    ensures plot != null ==>
      fresh(plot) && plot.Valid() && plot.shape == Replay(plotTokens[..plotUsed], plotInitial) &&
      plot.width == (if plot.shape == Rectangle then plotWidth else ClampWidth(plotWidth, plotLength)) &&
      plot.length == plotLength && plot.height == 3.0 && plot.center == Origin
    // the leg-height prompt, reached once the plot is built
    ensures plot != null ==>
      1 <= heightUsed <= |heights| &&
      (forall j :: 0 <= j < heightUsed - 1 ==> !LegHeightAccepted(heights[j])) &&
      (heightUsed < |heights| ==> LegHeightAccepted(heights[heightUsed - 1]))
    ensures plot != null && !LegHeightAccepted(heights[heightUsed - 1]) ==> legUsed == 0 && leg == null
    // the leg-shape prompt, reached once the height is accepted
    ensures plot != null && LegHeightAccepted(heights[heightUsed - 1]) ==>
      1 <= legUsed <= |legTokens| && legShape == Replay(legTokens[..legUsed], legInitial) &&
      (forall j :: 1 <= j < legUsed ==> !LegShapeAccepted(Replay(legTokens[..j], legInitial))) &&
      (legUsed < |legTokens| ==> LegShapeAccepted(legShape)) &&
      (leg != null <==> LegShapeAccepted(legShape))
    ensures leg != null ==>
      plot != null && fresh(leg) && leg.height == heights[heightUsed - 1] &&
      leg.profile == LegProfile(legShape, first, second) && leg.center == Origin
  {
    var plotShape;
    plotUsed, plotShape := PromptShape(plotTokens, plotInitial, true);
    legShape := legInitial;
    heightUsed, legUsed := 0, 0;
    plot, leg := null, null;
    if !PlotShapeAccepted(plotShape) {
      return;
    }
    if plotShape == Rectangle {
      plot := new PlotShape.RectPlot(plotWidth, plotLength, 3.0, Origin);
    } else {
      plot := new PlotShape.OvalPlot(plotWidth, plotLength, 3.0, Origin);
    }
    var legHeight;
    heightUsed, legHeight := PromptLegHeight(heights);
    if !LegHeightAccepted(legHeight) {
      return;
    }
    var shape;
    legUsed, shape := PromptShape(legTokens, legInitial, false);
    legShape := shape;
    if !LegShapeAccepted(shape) {
      return;
    }
    if shape == Square {
      leg := new LegShape.RectLeg(first, first, legHeight, Origin);
    }
    if shape == Rectangle {
      leg := new LegShape.RectLeg(first, second, legHeight, Origin);
    }
    if shape == Circle {
      leg := new LegShape.CircleLeg(first, legHeight, Origin);
    }
  }
}
