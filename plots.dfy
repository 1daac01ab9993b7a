/** The table plot and the table leg as objects with mutable fields. */
module Plots {
  import opened Geometry
  import opened Primitives
  import opened Ovals
  import opened Shapes

  /** What a plot of the given kind submits when it is drawn. */
  function PlotMeshes(m: Mathlib, shape: Shape, width: real, length: real, height: real, center: Point): seq<Mesh> {
    if shape == Rectangle then [BoxMesh(width, length, height, center)]
    else OvalPlotMeshes(m, width, length, height, center)
  }

  /** A table plot: a rectangular slab (RectPlot) or an oval slab (OvalPlot). */
  class PlotShape {
    const shape: Shape
    var width: real
    var length: real
    var height: real
    var center: Point

    /** A plot is rectangular or oval, and an oval plot is never wider than 1.3 times
        its length. */
    ghost predicate Valid()
      reads this
    {
      (shape == Rectangle || shape == Oval) && (shape == Oval ==> width <= 1.3 * length)
    }

    constructor RectPlot(width0: real, length0: real, height0: real, center0: Point)
      ensures shape == Rectangle && Valid()
      ensures width == width0 && length == length0 && height == height0 && center == center0
    {
      shape := Rectangle;
      width := width0;
      length := length0;
      height := height0;
      center := center0;
    }

    constructor OvalPlot(width0: real, length0: real, height0: real, center0: Point)
      ensures shape == Oval && Valid()
      ensures width == ClampWidth(width0, length0)
      ensures length == length0 && height == height0 && center == center0
    {
      shape := Oval;
      width := width0;
      length := length0;
      height := height0;
      center := center0;
      new;
      if width > 1.3 * length {
        width := 1.3 * length;
      }
    }

    function GetShape(): Shape reads this { shape }
    function GetWidth(): real reads this { width }
    function GetLength(): real reads this { length }
    function GetHeight(): real reads this { height }
    function GetCenter(): Point reads this { center }

    ghost function Meshes(m: Mathlib): seq<Mesh>
      reads this
    {
      PlotMeshes(m, shape, width, length, height, center)
    }

    /** Draws the slab: a box for a rectangular plot, the extruded oval for an oval one. */
    method Draw(gl: Renderer, m: Mathlib)
      requires Valid()
      modifies gl
      ensures gl.submitted == old(gl.submitted) + Meshes(m)
    {
      if shape == Rectangle {
        var _ := DrawParallelepiped(gl, width, length, height, center);
      } else {
        var _ := DrawOvalPlot(gl, m, width, length, height, center);
      }
    }
  }

  /** The cross-section of a leg: a width-by-length rectangle or a circle. */
  datatype Profile = RectProfile(width: real, length: real) | CircleProfile(radius: real)
  {
    /** The distance from the leg's axis the clearance offset accounts for: the larger
        half-extent of a rectangle, the radius of a circle. */
    function MaxDist(): (d: real)
      ensures RectProfile? ==> d >= width / 2.0 && d >= length / 2.0 && (d == width / 2.0 || d == length / 2.0)
      ensures CircleProfile? ==> d == radius
      ensures d >= HalfWidth() && d >= HalfLength()
    {
      match this
      case RectProfile(w, l) => if w / 2.0 >= l / 2.0 then w / 2.0 else l / 2.0
      case CircleProfile(r) => r
    }

    /** Half the extent of the cross-section along x and along y. */
    function HalfWidth(): real {
      if RectProfile? then width / 2.0 else radius
    }

    function HalfLength(): real {
      if RectProfile? then length / 2.0 else radius
    }

    /** The kind a leg of this profile reports: never SQUARE, since a square leg is a
        rectangle whose sides agree. */
    function Kind(): (s: Shape)
      ensures s == Rectangle <==> RectProfile?
      ensures s == Circle <==> CircleProfile?
      ensures LegShapeAccepted(s) && s != Square
    {
      if RectProfile? then Rectangle else Circle
    }
  }

  /** What a leg of the given profile and height submits when it is drawn at `center`. */
  function LegMeshes(m: Mathlib, profile: Profile, height: real, center: Point): seq<Mesh> {
    match profile
    case RectProfile(w, l) => [BoxMesh(w, l, height, center)]
    case CircleProfile(r) => CylinderMeshes(m, r, height, center)
  }

  /** A table leg: a rectangular post (RectLeg) or a cylinder (CircleLeg).  One leg object
      is moved to each leg position in turn and drawn there. */
  class LegShape {
    const profile: Profile
    var height: real
    var center: Point

    constructor RectLeg(width0: real, length0: real, height0: real, center0: Point)
      ensures profile == RectProfile(width0, length0) && height == height0 && center == center0
    {
      profile := RectProfile(width0, length0);
      height := height0;
      center := center0;
    }

    constructor CircleLeg(radius0: real, height0: real, center0: Point)
      ensures profile == CircleProfile(radius0) && height == height0 && center == center0
    {
      profile := CircleProfile(radius0);
      height := height0;
      center := center0;
    }

    function GetHeight(): real reads this { height }
    function GetShape(): Shape reads this { profile.Kind() }
    function MaxDist(): real reads this { profile.MaxDist() }

    /** Moves the leg; its height and cross-section stay as they were. */
    method SetCenter(c: Point)
      modifies this
      ensures center == c && height == old(height)
      ensures GetHeight() == old(GetHeight()) && MaxDist() == old(MaxDist()) && GetShape() == old(GetShape())
    {
      center := c;
    }

    ghost function Meshes(m: Mathlib): seq<Mesh>
      reads this
    {
      LegMeshes(m, profile, height, center)
    }

    /** Draws the leg at its current centre: a box or a cylinder. */
    method Draw(gl: Renderer, m: Mathlib)
      modifies gl
      ensures gl.submitted == old(gl.submitted) + Meshes(m)
    {
      match profile
      case RectProfile(w, l) =>
        var _ := DrawParallelepiped(gl, w, l, height, center);
      case CircleProfile(r) =>
        var _ := DrawCylinder(gl, m, r, height, center);
    }
  }
}
