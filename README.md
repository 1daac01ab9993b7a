# Table: a verified model of the table drawer

The program asks on the console for the shape and size of a table plot (rectangular or
oval) and of its legs (square, rectangular or round, 25 to 90 cm high), and then draws the
table as triangle meshes. A tetragon, a box and a circular sector are each flattened
into one buffer of floats and one buffer of triangle indices and handed to the graphics
library as one mesh. The composite shapes are drawn as several such meshes: an oval is
4 sectors, an oval plot 2 ovals and 404 wall tetragons (412 meshes), and a cylinder
2 sectors and 100 wall tetragons (102 meshes). Every primitive except the tetragon also
returns the points it drew; the tetragon returns nothing.

This project models those routines and proves what they draw:

- `Geometry` holds points, translation, the triangle-mesh value `Mesh`, and the graphics
  library as a `Renderer` object.
  - `Renderer.Submit` stands for the upload-and-draw routine. It records the mesh it was
    given in a ghost log, `submitted`.
  - Every drawing method states its effect as `gl.submitted == old(gl.submitted) + ...`,
    where the appended meshes are given by a specification function of the inputs.
  - Lemmas state what those meshes are: their corners, their triangles and their symmetry.
- `Primitives` covers:
  - the tetragon and the box, with its 8 corners and 12 triangles, two on each of the
    6 faces;
  - the 101-point circular sector, with its rim on the circle and its 100-triangle fan;
  - the cylinder: two disks plus 100 wall quads.
- `Ovals` covers the width clamp, the four-arc oval (the two arcs are tangent to both
  circles), and the oval plot: two ovals plus 404 wall quads, the last one closing the ring.
- `Shapes` covers the `Shape` enumeration, reading a shape from a token, printing it, and
  the acceptance tests and re-prompt loops of the console dialogue.
- `Plots` has the plot and leg objects (`PlotShape`, `LegShape`), whose fields their
  constructors and `SetCenter` update.
- `Assembly` covers:
  - `DrawTable`, which places and draws the legs;
  - `Input`, which builds the plot and the leg from the console dialogue.

Numbers are `real`. The trigonometric functions (`cos`, `sin`, `atan`) and the value of
a division by zero are the fields of a `Mathlib` value that each routine takes as a
parameter. Where a property needs cos² + sin² = 1, the lemma takes that as a requirement.

## Model

| member | source | states |
|---|---|---|
| Geometry.Translate | table/functionality.cpp:166-171 | the translated points are the input points, each moved by the displacement, in the same order |
| Geometry.TranslateConcat | table/functionality.cpp:262-277 | translating a concatenation of point lists is the concatenation of the translated lists |
| Geometry.Quot | table/functionality.cpp:246-254 | the quotient used in the oval's arc computation satisfies q * y == x whenever the divisor is non-zero |
| Geometry.Unflatten | table/functionality.cpp:172-175 | a buffer of 3n floats is read as n points, point k taken from entries 3k, 3k+1 and 3k+2 |
| Geometry.UnflattenMoved | table/functionality.cpp:166-171 | adding the centre's coordinate to every float of a buffer, x to x entries, y to y entries and z to z entries, translates the points it holds by the centre |
| Geometry.Renderer.Submit | table/functionality.cpp:97-132 | submitting the first verticesSize floats and indicesSize indices, each at most 400 as the fixed copy buffers demand, appends exactly that mesh to the log |
| Primitives.TetragonTriangles | table/functionality.cpp:134-150 | a tetragon is a well-formed mesh of two triangles, (p1, p2, p3) and (p2, p3, p4) |
| Primitives.DrawTetragon | table/functionality.cpp:134-150 | drawing a tetragon appends exactly its mesh to the log |
| Primitives.BoxFlat | table/functionality.cpp:155-165 | the box's vertex table has 24 floats, 8 corners of 3 coordinates |
| Primitives.BoxFlatPoints | table/functionality.cpp:155-165 | the 24 floats read back as the 8 corner offsets (+-width/2, +-length/2, +-height/2), x varying fastest |
| Primitives.NewBoxVertices | table/functionality.cpp:155-165 | the new vertex buffer holds the box's vertex table |
| Primitives.NewBoxIndices | table/functionality.cpp:176-189 | the new index buffer holds the 36 indices of the 12 face triangles |
| Primitives.MoveBuffer | table/functionality.cpp:166-171 | after the move loop the buffer's points are the old points translated by the centre |
| Primitives.BufferPoints | table/functionality.cpp:172-175 | the points pushed into the result are the buffer's points, in order |
| Primitives.DrawParallelepiped | table/functionality.cpp:152-194 | returns the 8 translated corners and appends exactly the box mesh to the log |
| Primitives.BoxCornerBits | table/functionality.cpp:155-165 | corner k lies at centre +- the half-extents, the sign along x, y and z given by bits 0, 1 and 2 of k |
| Primitives.BoxTranslation | table/functionality.cpp:166-171 | moving the box's centre by d translates all its corners by d |
| Primitives.BoxTrianglesZ | table/functionality.cpp:177-180 | triangles 0-3 are the front and back faces, normal to z: (0,1,2), (1,2,3), (4,5,6), (5,6,7) |
| Primitives.BoxTrianglesY | table/functionality.cpp:181-184 | triangles 4-7 are the two faces normal to y |
| Primitives.BoxTrianglesX | table/functionality.cpp:185-188 | triangles 8-11 are the two faces normal to x |
| Primitives.BoxIndexBounds | table/functionality.cpp:176-189 | there are 36 indices, each below 8, so the mesh of every box, whatever its size and centre, is well formed |
| Primitives.BoxTriangleOnOneFace | table/functionality.cpp:176-189 | each triangle has three distinct corners, and exactly one coordinate bit is shared by all three, so it lies in exactly one face plane |
| Primitives.BoxFacesX | table/functionality.cpp:176-189 | the faces x = -width/2 and x = +width/2 carry exactly two triangles each |
| Primitives.BoxFacesY | table/functionality.cpp:176-189 | the faces y = -length/2 and y = +length/2 carry exactly two triangles each |
| Primitives.BoxFacesZ | table/functionality.cpp:176-189 | the faces z = -height/2 and z = +height/2 carry exactly two triangles each |
| Primitives.SectorPoints | table/functionality.cpp:196-223 | a sector has 101 points, the centre and 100 rim points |
| Primitives.SectorShape | table/functionality.cpp:199-223 | point 0 of a sector is its centre and all 101 points lie in the centre's z plane |
| Primitives.FanTriangles | table/functionality.cpp:225-234 | the fan is 100 triangles: (0, k+1, k+2) for k < 99 and the closing (0, 100, 1); every index is at most 100 |
| Primitives.SectorTranslation | table/functionality.cpp:213-218 | moving the centre by d moves every sector point by d |
| Primitives.RotateNorm | table/functionality.cpp:206-211 | when cos² + sin² = 1 for the angle, one rotation step keeps a point's distance from the z axis |
| Primitives.RimOnCircle | table/functionality.cpp:199-211 | when cos² + sin² = 1, every point the rotation loop produces lies at distance r from the centre |
| Primitives.SectorRimOnCircle | table/functionality.cpp:199-218 | when cos² + sin² = 1, each drawn rim point 1 to 100 of a sector lies at distance \|r\| from the sector's centre, in its plane |
| Primitives.NewSectorVertices | table/functionality.cpp:199-211 | the 303-float buffer holds the origin, the start point and the repeatedly rotated rim points |
| Primitives.SetPoint | table/functionality.cpp:208-210 | writing a point changes exactly the three floats at i, i+1 and i+2 |
| Primitives.NewFanIndices | table/functionality.cpp:225-234 | the index loop fills the buffer with the fan's 300 indices |
| Primitives.DrawPartialCircle | table/functionality.cpp:196-239 | returns the sector's 101 points and appends exactly the fan mesh to the log |
| Primitives.StitchQuads | table/functionality.cpp:289-293 | wall quad i joins points i and i+1 of the top and bottom outlines; the open wall is the closed one without the closing quad, which joins the last point to the first |
| Primitives.CylinderShape | table/functionality.cpp:307-327 | the top and bottom disks are the base disk moved by +-height/2 along z; the cylinder is 102 meshes, with wall quad i at position 2 + i |
| Primitives.DrawWalls | table/functionality.cpp:313-316 | the wall loop appends exactly the open wall's quads to the log |
| Primitives.PushAll | table/functionality.cpp:318-325 | the push loop appends the points in order |
| Primitives.DrawCylinder | table/functionality.cpp:307-327 | returns the top disk's points followed by the bottom disk's and appends exactly the cylinder's meshes |
| Ovals.ClampWidth | table/functionality.cpp:244-245 | the clamped width is at most the width and at most 1.3 times the length, and equals one of them |
| Ovals.ClampIdempotent | table/functionality.h:109-110 | clamping an already clamped width changes nothing |
| Ovals.ClampIsMin | table/functionality.cpp:244-245 | the width is kept when it is at most 1.3 times the length, and replaced by 1.3 times the length otherwise |
| Ovals.OvalLayout | table/functionality.cpp:244-246 | the big radius is half the length, the small radius a quarter, and the small circle sits at the clamped width minus 3/4 of the length along x |
| Ovals.ArcCenterY | table/functionality.cpp:250 | the arcs' centre offset y satisfies y * 2(R - r) = a² - (R - r)² when R differs from r, and is the value of a division by zero otherwise |
| Ovals.ArcRadius | table/functionality.cpp:251 | the arcs' radius f satisfies f * 2(R - r) = R² - r² + a² when R differs from r, and is the value of a division by zero otherwise |
| Ovals.OvalArcs | table/functionality.cpp:246-260 | the four sectors: the big circle at the centre, the small circle at the clamped offset, and two arcs of equal radius on the centre's x, mirrored in y and drawn with negated angles |
| Ovals.ZeroLengthCenterDivides | table/functionality.cpp:250 | a zero length makes the arc centre offset the value of a division by zero |
| Ovals.ZeroLengthRadiusDivides | table/functionality.cpp:251 | a zero length makes the arc radius the value of a division by zero |
| Ovals.ArcsOnAxisDivide | table/functionality.cpp:252 | a clamped width equal to the length or half of it puts the arcs' centres on the axis, so the sweep angle is the arctangent of a division by zero |
| Ovals.CentredSmallCircleDivides | table/functionality.cpp:253 | a clamped width of 3/4 of the length puts the small circle at the centre, so the start angle is the arctangent of a division by zero |
| Ovals.OvalPoints | table/functionality.cpp:262-277 | an oval has 404 points, 101 for each of its four sectors |
| Ovals.TangentArcAlgebra | table/functionality.cpp:246-254 | the arc radius is the arc centre's distance plus the big radius, and the arc centre is at distance (arc radius - small radius) from the small circle's centre |
| Ovals.ArcsTangent | table/functionality.cpp:246-260 | each of the two arcs touches the big circle and the small circle from inside: centre distance equals radius difference |
| Ovals.OvalShape | table/functionality.cpp:241-280 | the oval is the big sector, the small sector at the clamped offset, and two arcs mirrored in the x axis, in that order; 404 points and 4 meshes |
| Ovals.OvalTranslation | table/functionality.cpp:241-280 | moving the oval's centre by d moves every point by d |
| Ovals.DrawOval | table/functionality.cpp:241-280 | returns the oval's points and appends exactly its four sector meshes |
| Ovals.OvalPlotOutlines | table/functionality.cpp:286-287 | the upper and lower outlines are the oval moved by +-height/2 along z |
| Ovals.OvalPlotShape | table/functionality.cpp:282-305 | the plot is the two ovals then 404 wall quads, quad i joining outline points i and i+1 and the last closing the ring; the returned points are top then bottom |
| Ovals.DrawOvalPlot | table/functionality.cpp:282-305 | returns the plot's points and appends exactly its 412 meshes |
| Shapes.ReadShape | table/functionality.cpp:329-345 | the value left after reading one token is the decoded shape |
| Shapes.DecodeMeaning | table/functionality.cpp:333-342 | a token of shape t is read as t, and a token of no shape leaves the variable unchanged |
| Shapes.TokensDisjoint | table/functionality.cpp:333-342 | no token is listed for two shapes, so the order of the five tests does not matter |
| Shapes.ShapeName | table/functionality.cpp:347-359 | the printed name of a shape is one of its own tokens and a token of no other shape |
| Shapes.DigitIsToken | table/functionality.cpp:333-342 | the ordinal digit of every shape is one of its accepted tokens |
| Shapes.PrintThenRead | table/functionality.cpp:329-359 | reading back a printed shape gives that shape, whatever the variable held |
| Shapes.LegHeightAccepted | table/functionality.cpp:410 | a leg height is accepted exactly when 25 <= height <= 90 |
| Shapes.PlotShapeAccepted | table/functionality.cpp:397 | a plot shape is accepted exactly when it is RECTANGLE or OVAL, the ordinals 0 and 1 |
| Shapes.LegShapeAccepted | table/functionality.cpp:417 | a leg shape is accepted exactly when it is RECTANGLE, CIRCLE or SQUARE, and rejected exactly when it is OVAL or TRIANGLE |
| Shapes.PromptLegHeight | table/functionality.cpp:407-414 | the loop stops at the first accepted height; every earlier height was rejected; running out of input is the only way to stop on a rejected one |
| Shapes.PromptShape | table/functionality.cpp:395-401 | the shape is the token-by-token replay of what was read; no earlier prefix was accepted; running out of input is the only way to stop on a rejected shape |
| Shapes.ReplayStep | table/functionality.cpp:396-400 | replaying one more token applies one more read to the previous value |
| Plots.PlotShape.RectPlot | table/functionality.h:87-93 | a rectangular plot keeps the given width, length, height and centre |
| Plots.PlotShape.OvalPlot | table/functionality.h:105-113 | an oval plot stores the clamped width and the given length, height and centre, so it is never wider than 1.3 times its length |
| Plots.PlotShape.Draw | table/functionality.h:99 | drawing a plot appends the box for a rectangle and the oval plot for an oval; see also functionality.h:119 |
| Plots.Profile.MaxDist | table/functionality.h:150-153 | a rectangular leg's reach is the larger half-extent and a round leg's is its radius (line 171); it covers both half-extents |
| Plots.Profile.Kind | table/functionality.h:149 | a rectangular leg reports RECTANGLE and a round leg CIRCLE (line 170); never SQUARE |
| Plots.LegShape.RectLeg | table/functionality.h:141-147 | a rectangular leg keeps the given width, length, height and centre |
| Plots.LegShape.CircleLeg | table/functionality.h:163-168 | a round leg keeps the given radius, height and centre |
| Plots.LegShape.SetCenter | table/functionality.h:154 | moving a leg changes its centre only; its height, reach and reported shape are unchanged (line 172 for round legs) |
| Plots.LegShape.Draw | table/functionality.h:155 | drawing a leg appends a box for a rectangular leg and a cylinder for a round one (line 173) |
| Assembly.Clearance | table/functionality.cpp:363 | the legs' offset from the plot's edges keeps 5 cm beyond both of the leg's half-extents, and exactly 5 cm beyond the larger |
| Assembly.LegCenters | table/functionality.cpp:361-388 | a rectangular plot gets 4 legs, an oval plot 3 and any other shape none; every leg's top touches the plot's underside |
| Assembly.RectangleLegsInside | table/functionality.cpp:363-375 | the four legs are offset in from the corners, are mirror images of each other, and keep 5 cm from every edge |
| Assembly.OvalLegsPlacement | table/functionality.cpp:377-386 | on an oval plot one leg stands offset in from the small circle's far end on the axis, and two stand offset in from the big circle's top and bottom |
| Assembly.RectangleTableExample | table/functionality.cpp:363-375 | a 100 x 60 plot on 10 cm square legs puts the legs at (+-40, +-20, -36.5) |
| Assembly.LegsMeshesCount | table/functionality.cpp:361-388 | each rectangular leg contributes one mesh and each round leg 102 |
| Assembly.PlaceLeg | table/functionality.cpp:368-369 | moving the leg to a position and drawing it appends that leg's meshes there |
| Assembly.PlaceThreeLegs | table/functionality.cpp:381-386 | three placements append the legs at the three positions, in order |
| Assembly.PlaceFourLegs | table/functionality.cpp:368-375 | four placements append the legs at the four positions, in order |
| Assembly.DrawRectangularTable | table/functionality.cpp:364-376 | the rectangular branch draws the plot and then the four legs |
| Assembly.DrawOvalTable | table/functionality.cpp:377-387 | the oval branch draws the plot and then the three legs |
| Assembly.DrawTable | table/functionality.cpp:361-388 | the log gains the plot's meshes and then one leg at each position, with offset 5 cm plus the leg's reach; the leg ends at the last position with its height unchanged |
| Assembly.LegProfile | table/functionality.cpp:422-442 | a square leg is a rectangle whose both sides are the first number typed, a rectangle has the first number as width and the second as length, and a circle is round with the first number as radius |
| Assembly.Input | table/functionality.cpp:390-485 | a plot is built exactly when the replayed plot shape is accepted, at the first accepted prefix: rectangular with the typed width, or oval with the clamped width, 3 cm thick at the origin; then the leg height is the first accepted one typed; once it is accepted the leg shape is the replay of the leg tokens up to the first accepted prefix, and a leg is built exactly when that shape is accepted, with that height and that shape's profile at the origin |

## Left out

- Window creation, shader compilation, the render loop and `main.cpp` are not part of this model. The graphics calls are replaced by the ghost log in `Geometry.Renderer`.
- The buffer upload is modelled by its effect only: the mesh built from the used part of each buffer. The unused entries of the 400-entry copies are not modelled.
- All arithmetic is on real numbers. Single-precision rounding and the mix of float and double in the source are not modelled.
- `cos`, `sin` and `atan` are uninterpreted (fields of `Mathlib`). A division by zero gives the uninterpreted value `divByZero` of its numerator instead of an IEEE infinity or NaN. The oval divides by zero in three places, each stated by a lemma: the arc centre and radius when the length is 0 (`Ovals.ZeroLengthCenterDivides`, `Ovals.ZeroLengthRadiusDivides`), the sweep angle when the clamped width is the length or half of it (`Ovals.ArcsOnAxisDivide`; a 100 x 100 plot is one), and the start angle when the clamped width is 3/4 of the length (`Ovals.CentredSmallCircleDivides`).
- Console I/O is modelled by sequences of inputs. The source re-prompts without end; the model stops when its input runs out and then returns a null plot or leg.
- The shape variables start uninitialised in the source. The model takes their starting value as a parameter.
- TRIANGLE exists only as a token and a printed name. Nothing draws it.
- The getters (`GetWidth`, `GetHeight`, `MaxDist` on `LegShape`, and the others) carry no contracts of their own. They only return a field; their meaning is stated by `Plots.Profile.MaxDist` and `Plots.Profile.Kind`.
- The source has abstract base classes with two concrete subclasses each. The model uses one class per hierarchy: the plot keeps its shape as a constant, the leg its `Profile`.
- `input` has the same leg dialogue twice, once under each plot shape. `Assembly.Input` models it once.
- `Shapes.ReadShape` writes each chain of string comparisons as a membership test in the token list.
- `Assembly.PlaceLeg`, `Assembly.PlaceThreeLegs`, `Assembly.PlaceFourLegs`, `Assembly.DrawRectangularTable`, `Assembly.DrawOvalTable`, `Primitives.SetPoint`, `Primitives.PushAll` and `Primitives.DrawWalls` factor the source's straight-line code and loops into steps. They add no behaviour.
- Leg positions are computed from the plot's size alone, as in the source. A plot whose centre is not the origin would get its legs in the wrong place; `Input` always puts the plot at the origin.
