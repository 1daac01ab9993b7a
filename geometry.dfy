/** Points, meshes and the rendering collaborator that meshes are submitted to.
    Every length is in centimetres and every float of the program is a `real`. */
module Geometry {

  datatype Point = Point(x: real, y: real, z: real)

  const Origin := Point(0.0, 0.0, 0.0)

  /** The value of pi used throughout the program (a float literal, not the true pi). */
  const Pi: real := 3.1415

  function Add(p: Point, d: Point): Point {
    Point(p.x + d.x, p.y + d.y, p.z + d.z)
  }

  /** Every point of `ps` moved by `d`. */
  function Translate(ps: seq<Point>, d: Point): (r: seq<Point>)
    ensures |r| == |ps|
    ensures forall k :: 0 <= k < |ps| ==> r[k] == Add(ps[k], d)
  {
    seq(|ps|, k requires 0 <= k < |ps| => Add(ps[k], d))
  }

  lemma TranslateConcat(a: seq<Point>, b: seq<Point>, d: Point)
    ensures Translate(a + b, d) == Translate(a, d) + Translate(b, d)
  {
    assert forall k :: 0 <= k < |a + b| ==> Translate(a + b, d)[k] == (Translate(a, d) + Translate(b, d))[k];
  }

  /** The mathematical functions of the C library, left uninterpreted.  `divByZero(x)`
      stands for the float value of x / 0 (an infinity or NaN), for which a real has
      no value of its own. */
  datatype Mathlib = Mathlib(cos: real -> real, sin: real -> real, atan: real -> real,
                             divByZero: real -> real)

  /** Float division: real division where the divisor is not zero. */
  function Quot(m: Mathlib, x: real, y: real): (q: real)
    ensures y != 0.0 ==> q * y == x
  {
    if y == 0.0 then m.divByZero(x) else x / y
  }

  /** A submitted mesh: the vertex positions and the flat list of triangle corners. */
  datatype Mesh = Mesh(vertices: seq<Point>, indices: seq<nat>)

  /** Regrouping a log that grew by several meshes: stated over abstract sequences so the
      meshes themselves are not unfolded. */
  lemma AppendAssociative(a: seq<Mesh>, b: seq<Mesh>, c: seq<Mesh>)
    ensures a + b + c == a + (b + c)
  {
  }

  /** Every index refers to a vertex and the index list is made of whole triangles. */
  ghost predicate WellFormed(m: Mesh) {
    |m.indices| % 3 == 0 &&
    forall i :: 0 <= i < |m.indices| ==> m.indices[i] < |m.vertices|
  }

  /** The corners of triangle `t` of a mesh, as indices. */
  function Corners(m: Mesh, t: nat): (nat, nat, nat)
    requires 3 * t + 2 < |m.indices|
  {
    (m.indices[3 * t], m.indices[3 * t + 1], m.indices[3 * t + 2])
  }

  /** A flat float buffer x0, y0, z0, x1, ... read back as points. */
  function Unflatten(a: seq<real>): (ps: seq<Point>)
    requires |a| % 3 == 0
    ensures |ps| * 3 == |a|
    ensures forall k :: 0 <= k < |ps| ==> ps[k] == Point(a[3 * k], a[3 * k + 1], a[3 * k + 2])
  {
    if a == [] then [] else [Point(a[0], a[1], a[2])] + Unflatten(a[3..])
  }

  /** Coordinate j (0: x, 1: y, 2: z) of a point. */
  function Coord(p: Point, j: nat): real {
    if j == 0 then p.x else if j == 1 then p.y else p.z
  }

  /** Adding the centre's coordinates to a flat buffer in place moves every point by the centre. */
  lemma UnflattenMoved(init: seq<real>, moved: seq<real>, c: Point)
    requires |init| % 3 == 0 && |moved| == |init|
    requires forall n :: 0 <= n < |init| ==> moved[n] == init[n] + Coord(c, n % 3)
    ensures Unflatten(moved) == Translate(Unflatten(init), c)
  {
    var u, v := Unflatten(moved), Translate(Unflatten(init), c);
    assert |u| == |v|;
    forall k | 0 <= k < |u|
      ensures u[k] == v[k]
    {
      MovedPoint(init, moved, c, k);
    }
  }

  lemma MovedPoint(init: seq<real>, moved: seq<real>, c: Point, k: nat)
    requires |moved| == |init| && 3 * k + 2 < |init|
    requires forall n :: 0 <= n < |init| ==> moved[n] == init[n] + Coord(c, n % 3)
    ensures Point(moved[3 * k], moved[3 * k + 1], moved[3 * k + 2]) ==
            Add(Point(init[3 * k], init[3 * k + 1], init[3 * k + 2]), c)
  {
    assert (3 * k) % 3 == 0 && (3 * k + 1) % 3 == 1 && (3 * k + 2) % 3 == 2;
  }

  /** The rendering collaborator.  Submitting a buffer pair, which the program does by
      uploading it and issuing a draw call, is recorded in the ghost log `submitted`. */
  class Renderer {
    ghost var submitted: seq<Mesh>

    constructor ()
      ensures submitted == []
    {
      submitted := [];
    }

    /** Submits the first `verticesSize` floats and the first `indicesSize` indices.  The
        program copies both into fixed buffers of 400 entries before uploading them, so
        neither may be longer. */
    method Submit(vertices: array<real>, verticesSize: nat, indices: array<nat>, indicesSize: nat)
      requires verticesSize <= vertices.Length && verticesSize % 3 == 0 && verticesSize <= 400
      requires indicesSize <= indices.Length && indicesSize <= 400
      modifies this
      ensures submitted == old(submitted) + [Mesh(Unflatten(vertices[..verticesSize]), indices[..indicesSize])]
    {
      submitted := submitted + [Mesh(Unflatten(vertices[..verticesSize]), indices[..indicesSize])];
    }
  }
}
