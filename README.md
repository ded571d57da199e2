# Wireframe cube rotation: a Dafny model of the orientation logic

The program draws a wireframe polyhedron that the user turns about the X, Y
and Z axes with six keys. This project models its rigid-body core in Dafny:

- the orientation matrix `r_m(a, b, c)` (module `Geometry`);
- the class `PhysicalBody`, with a fixed vertex array, a fixed edge tuple, a
  three-slot rotation accumulator, `rotate` and the `lines` property (module `Body`);
- the key table `params`, `keys_handler` and the 10-vertex cube that `main`
  builds (module `Scene`);
- the projection `Paint.__fit` and the edge colour expression (module `Paint`).

Coordinates and angles are exact reals. `cos` and `sin` come in as a `Trig`
value, a pair of functions the model does not define. The only facts about
them that proofs use are `cos(0) = 1` and `sin(0) = 0` (predicate
`ExactAtZero`), plus an explicit hypothesis `cos c = 0, sin c = 1` for the
quarter-turn scenario. Python's `round` comes in as a parameter `real -> int`.
The numpy product `vertices.dot(r_m(...))` is written out as a row vector
times a 3x3 matrix (`Geometry.RowTimes`), applied to each vertex.

`PhysicalBody` is a class. `vertices` and `edges` are `const` fields, so
nothing can change them after construction. `rotation` is a `const` reference
to a 3-element `array<real>`, and only `Rotate` writes to that array. `Lines`
is a function of the body's state that reads that array.

The requirements the code relies on but never checks are preconditions:
- the axis is 0, 1 or 2;
- every edge has two distinct endpoints;
- every edge index is below the vertex count.

The vertex array must also be non-empty when `lines` is read, because numpy's
`dot` rejects an empty array there.

Two consequences of the code are worth stating outright:

- `lines` multiplies each vertex, as a row vector, by `r_m`. So a quarter turn
  about Z (cos c = 0, sin c = 1) takes (1,0,0) to (0,-1,0) and (0,1,0) to
  (1,0,0): a positive angle turns the body clockwise seen from +Z
  (`Body.QuarterTurnAboutZ`).
- The green channel of an edge's colour is `|end.x*120*0.6 - 117*0.4*start.x|`.
  For start (1,0,0) and end (0,0,0) that is 46.8, so the colour is
  (30, 46.8, 0) (`Paint.EdgeColourExample`).

## Model

| member | source | states |
|---|---|---|
| Geometry.RotationMatrix | cube.py:9-14 | r_m(a, b, c) as written: nine entries, each a product of cosines and sines of a, b and c; it has no contract of its own, and the three rows below state what it is |
| Geometry.RotationMatrixComposes | cube.py:9-14 | r_m(a, b, c) equals the product of the elementary rotations about X by a, about Y by b and about Z by c, in that order; this fixes all nine entries and their signs |
| Geometry.OrientationOrder | cube.py:9-14 | under the row-vector product, a point turned by r_m(a, b, c) is the point turned about X, then about Y, then about Z |
| Geometry.RotationMatrixAtZero | cube.py:9-14 | if cos 0 = 1 and sin 0 = 0, then r_m(0, 0, 0) is the identity matrix |
| Geometry.SingleAxisRotations | cube.py:9-14 | with two angles zero, r_m is exactly the elementary rotation about the remaining axis (for pure Z: x and y mixed by cos and sin, z kept). A row vector times it is turned by minus the angle, so for Z a positive angle turns clockwise seen from +Z |
| Body.Transform | cube.py:33 | `location` has one entry per vertex, in vertex order; entry k is vertex k times the matrix |
| Body.EdgePairs | cube.py:34 | the generator yields exactly one pair per edge, in stored order; pair i is (location[v1], location[v2]) of edge i |
| Body.LinesOf | cube.py:33-34 | the eager form of `lines` for given vertices, edges and angles: vertices times r_m of the angles, then one pair per edge; exactly one pair per edge |
| Body.LinesOfPairs | cube.py:33-34 | `lines` yields exactly one pair per stored edge, in stored order; pair i is the two endpoints of edge i, each multiplied by r_m of the current angles |
| Body.LinesOfConcat | cube.py:34 | pairs come in edge order whatever the angles: the lines for edges e1 + e2 are the lines for e1 followed by the lines for e2 |
| Body.LinesOfUnrotated | cube.py:9-14 | with all angles zero, `lines` yields the original vertex coordinates, one pair per edge, in stored edge order |
| Body.QuarterTurnAboutZ | cube.py:9-14 | vertices (1,0,0),(0,1,0) with edge (0,1), turned by c about Z with cos c = 0 and sin c = 1, give the single pair ((0,-1,0), (1,0,0)) |
| Body.Turned | cube.py:29 | adding delta to slot axis: that slot becomes old + delta, the other slots keep their values |
| Body.TurnedTwice | cube.py:29 | turning by a and then by b about one axis is the same as one turn by a + b, exactly |
| Body.TurnedCommute | cube.py:29 | turns about two axes give the same accumulator in either order |
| Body.PhysicalBody.constructor | cube.py:18-26 | a new body keeps the given vertices and edges, gets a fresh accumulator, and starts with rotation [0, 0, 0] |
| Body.PhysicalBody.Rotate | cube.py:28-29 | rotation[axis] becomes old + theta; the other two angles are unchanged; only the accumulator is written, so vertices and edges stay fixed |
| Body.PhysicalBody.Lines | cube.py:31-34 | `lines` is a function of the vertices, the edges and the current angles, with one pair per edge; two reads with no Rotate between them are equal |
| Body.RotateTwice | cube.py:28-29 | two Rotate calls about one axis leave that angle at old + a + b, and the other angles unchanged |
| Body.ReadThenRotate | cube.py:28-34 | the accumulator ends turned by theta about axis; pairs read before the Rotate are those of the old angles; a read after it gives the pairs of the turned angles |
| Body.FreshBodyLines | cube.py:24-34 | the first read of `lines` on a newly built body gives the original vertex coordinates for each edge, in stored order |
| Scene.ParamsTable | cube.py:78-88 | `params` has six entries with distinct keys, two per axis in the order X, Y, Z; in each axis's pair the clockwise step (-0.005) comes first and the counter-clockwise step (0.005) second |
| Scene.Handled | cube.py:90-93 | the angles after one pass of keys_handler over a key table: the in-order fold of Turned over the bindings whose key is held; the result again has three angles |
| Scene.HandledSums | cube.py:90-93 | handling a key table in order moves each angle by the sum of the steps of the pressed keys mapped to that axis |
| Scene.HandledTotals | cube.py:90-93 | after handling any key table, the three angles are the old angles plus, per axis, the summed steps of the held keys for that axis |
| Scene.ParamsAxisSums | cube.py:78-88 | for `params`, the summed step on X is 0.005 x (w held - q held), on Y 0.005 x (s - a), on Z 0.005 x (x - z) |
| Scene.ParamsNetChange | cube.py:78-93 | one pass of keys_handler over `params` changes each angle by 0.005 x (held counter-clockwise keys - held clockwise keys) for its axis |
| Scene.IdleHandling | cube.py:90-93 | with no mapped key held, handling the table leaves the angles unchanged |
| Scene.KeysHandler | cube.py:90-93 | loops over `params` in order and calls Rotate once per held key; the accumulator ends as the in-order fold of those turns |
| Scene.CubeFits | cube.py:72-75 | the cube `main` builds (CubeVertices, CubeEdges) has 10 vertices and 15 edges, and every edge has two distinct in-range endpoints |
| Scene.MakeCube | cube.py:72-75 | the body `main` builds over those vertices and edges is valid, holds exactly that geometry, and is unrotated |
| Paint.FitZip | cube.py:50 | the comprehension over zip has as many entries as the shorter input; entry i is round(70 x coordinate i + frame i / 2) |
| Paint.Fit | cube.py:48-50 | `__fit` of a 3-D point, as the zip over the point and the 900 x 900 frame; it has exactly two entries |
| Paint.FitCoordinates | cube.py:48-50 | `__fit` of a point is exactly two integers, round(70x + 450) and round(70y + 450) |
| Paint.FitIgnoresZ | cube.py:48-50 | `__fit` does not depend on the z coordinate |
| Paint.EdgeColour | cube.py:60 | every colour channel is an absolute value, so it is never negative |
| Paint.EdgeColourLinear | cube.py:60 | in exact arithmetic the channels are abs(30 sx + 30 ex), abs(72 ex - 46.8 sx) and abs(29 ex). Here sx and ex are the x coordinates of the start and end; y and z play no part |
| Paint.EdgeColourExample | cube.py:60 | start (1,0,0) and end (0,0,0) give the colour (30, 46.8, 0) |

## Left out

- The pygame window, event polling, `exit()`, clearing the frame, the draw calls, the display flip, clock ticking, the icon and the caption (cube.py:39-46, 52-67, 95-99): these are I/O against a library this model does not include.
- Floating-point rounding and real trigonometry: angles and coordinates are exact reals, and cos and sin are unknown functions. The model therefore says nothing numeric about turns other than zero and the quarter turn given by hypothesis.
- numpy itself: `array` and `dot` are replaced by sequences of `Vec3` and an explicit row-vector product.
- The order in which a two-element Python set unpacks into `v1, v2` (cube.py:34, 74) depends on CPython's set iteration. An edge is an ordered pair here, and which endpoint comes first is whatever the caller wrote.
- Python's `round` (banker's rounding) and the drawing library's clamping of colour channels to 0..255: `round` is a parameter, and colour channels are unclamped reals.
- Negative indices, which Python would accept as counting from the end: edge indices and axes are natural numbers below their bounds.
- The laziness of the generator returned by `lines`: it is drained into a sequence. The model keeps what can be observed, with one exception: the out-of-range index error would be raised lazily, and the preconditions exclude it instead.
- pygame's key codes for q, w, a, s, z and x are written as the letters' ASCII codes. No proof depends on their values.
