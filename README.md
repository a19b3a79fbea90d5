# Rasterisers of the interactive curve editor

The core of `a2.js` turns drawing commands into lists of pixels and their
colours, and hands those lists to the renderer. This project models that
core:

- `drawLine`: a digital differential analyser;
- `drawCircle`: the integer midpoint circle algorithm;
- `isConvex` and `drawPolygon`: a convexity test, a fan triangulation and a fill per triangle;
- `calc_barycentric`, `in_triangle`, `get_min`, `get_max` and `fill_triangle`: a brute-force barycentric fill;
- `get_next_pt` and `drawCurve`: the Chaikin branch, with 15 corner-cutting passes.

Each drawing routine is a method that returns the `(pixels, colors)` pair
it would pass to `drawPointsGPU`. The current colour is a parameter.

Every method's loop is proved equal to a functional specification, and the
properties are lemmas about those specifications.

What the lemmas prove:

- **Lines** have `max(|dx|, |dy|) + 1` pixels and run from the start point to the end point. Consecutive pixels are 8-neighbours. Drawing the line from the other end gives the same pixels reversed.
- **Circles:** the loop keeps the midpoint error-term relation, and the decision `d >= 0` is the midpoint test. The pixel list is symmetric under both mirrorings and the diagonal swap. For a rounded radius `r >= 0` every pixel `p` satisfies `r^2 - r <= |p - c|^2 <= r^2 + r`. A rounded radius of 0 or less gives exactly the four cardinal points, because the loop never runs.
- **Triangles:** the barycentric weights are ratios of signed areas. `in_triangle` is exactly the integer edge-function test. The fill emits every integer point of the triangle exactly once, in column-major order, and a zero-area triangle fills nothing.
- **Polygons:** `isConvex` is a strict counter-clockwise turn. The convexity loop with its early break decides "every turn is convex". A polygon that is not convex, or is listed clockwise, draws nothing. A convex polygon draws exactly the points of its fan triangles.
- **Chaikin curves:**
  - one pass cuts every edge at its quarter points;
  - a closed chain of `n` points doubles in each pass, and an open one becomes `2n - 2`;
  - after 15 passes the counts are `32768 n` and `32768 (n - 2) + 2`;
  - every point stays inside any axis-aligned box that holds the control points;
  - a rounded quarter point is `(3c + o + 2) div 4`, computed exactly.

The modules are `Geometry` (shared vocabulary), `Line`, `Circle`,
`Triangle`, `Polygon` and `Curve`, one file each.

Two details of the code shape the model:

- `get_max` starts from `Number.MIN_VALUE`, which is the smallest positive double (2^-1074), not the most negative one. So the scan box reaches at least column and row 1 (`Triangle.ScanBoxOfIntegers`). The extra columns and rows never hold a point of the triangle, so what is drawn is unaffected (`Triangle.FillIsExactlyInTriangle`).
- With a zero-area triangle `calc_barycentric` divides by zero. In IEEE arithmetic no point then passes `in_triangle`, and the model says so (`Triangle.InTriangle`, `Triangle.DegenerateFillsNothing`).

## Model

| member | source | states |
|---|---|---|
| Geometry.Round | a2.js:310 | Math.round: the result is within half a unit of the argument, with halves rounded up |
| Geometry.Ceil | a2.js:419 | Math.ceil: the least integer at or above the argument |
| Geometry.Pixel | a2.js:383 | the pixel closure rounds each coordinate to within half a unit |
| Geometry.Pairs | a2.js:445-446 | the coordinate list becomes floor(n/2) points, point k being (coords[2k], coords[2k+1]) |
| Geometry.PairUp | a2.js:445-446 | the pairing loop computes exactly Pairs |
| Geometry.PairsDropsOddTail | a2.js:445 | a trailing unpaired coordinate is ignored |
| Geometry.Uniform | a2.js:326-331 | the colours list holds the one current colour, once per pixel |
| Line.StepCount | a2.js:313-318 | step is the larger of abs(dx) and abs(dy), and is one of them |
| Line.Increment | a2.js:321 | the per-step increment times step is the coordinate difference |
| Line.DrawLine | a2.js:307-335 | the pixel loop emits exactly LineSpec, the rounded samples 0 .. step, with one colour per pixel |
| Line.LineLength | a2.js:313-332 | the line has max(abs(dx), abs(dy)) + 1 pixels |
| Line.SampleReachesEnd | a2.js:321-329 | after step increments the running coordinate equals the end coordinate |
| Line.LineSpec | a2.js:313-332 | the line has step + 1 pixels, the first is (x0, y0) and the last is (x1, y1) |
| Line.LineSinglePoint | a2.js:314-327 | coincident endpoints give the single pixel (x0, y0) |
| Line.IncrementBounds | a2.js:321 | both increments are in [-1, 1], and the major axis moves by exactly plus or minus 1 |
| Line.LineConnected | a2.js:327-332 | consecutive pixels differ by at most one in each coordinate and are never equal |
| Line.LineReversed | a2.js:307-335 | drawing from (x1, y1) to (x0, y0) gives the same pixels in reverse order |
| Circle.MidpointStep | a2.js:505-511 | i grows by one, j drops by one exactly when d >= 0, and j - i decreases |
| Circle.DrawCircle | a2.js:485-528 | the centre and radius are rounded and the pixel list is exactly CircleSpec, with one colour per pixel |
| Circle.MidpointCircle | a2.js:490-521 | the cardinal points followed by the loop's eight reflections per round are exactly CircleSpec |
| Circle.ErrorTermAtStart | a2.js:492-495 | d = 1 - r is the midpoint error term at (0, r) |
| Circle.StepKeepsErrorTerm | a2.js:505-511 | each update preserves the error-term relation between d, i, j and r |
| Circle.DecisionIsMidpointTest | a2.js:505 | d >= 0 exactly when the midpoint (i + 1, j - 1/2) lies outside the circle |
| Circle.CircleNonPositiveRadius | a2.js:498-502 | a radius of 0 or less emits only the four cardinal points |
| Circle.Octants | a2.js:502-521 | the loop emits eight pixels per round, 8 * Rounds(s) in all |
| Circle.CircleSpec | a2.js:498-521 | the circle has 4 + 8 * rounds pixels: the four cardinal pixels and eight per round |
| Circle.CircleLength | a2.js:498-521 | a positive radius makes at least one round, so at least 12 pixels |
| Circle.EightSymmetric | a2.js:513-520 | the eight reflections are closed under swapping the axes and mirroring in x and in y about the centre |
| Circle.CardinalSymmetric | a2.js:498-501 | the four cardinal points are closed under the same three reflections |
| Circle.OctantsSymmetric | a2.js:502-521 | everything the loop emits is closed under the three reflections |
| Circle.CircleSymmetric | a2.js:498-521 | the whole pixel list is symmetric about the centre and both diagonals |
| Circle.HeadInvariantAtStart | a2.js:492-495 | the initial state satisfies the loop-head bounds for r >= 0 |
| Circle.StepBounds | a2.js:502-511 | one update keeps the loop-head bounds, and the new (i, j) satisfies r^2 - j <= i^2 + j^2 <= r^2 + j |
| Circle.EightDistance | a2.js:513-520 | every reflection of (i, j) is at squared distance i^2 + j^2 from the centre |
| Circle.CardinalDistance | a2.js:498-501 | the cardinal points are at squared distance r^2 from the centre |
| Circle.OctantsNearCircle | a2.js:502-521 | every pixel the loop emits has squared distance within r of r^2 |
| Circle.CircleNearRadius | a2.js:485-521 | for r >= 0 every circle pixel p satisfies r^2 - r <= dist(p, centre)^2 <= r^2 + r; for r <= 0 see Circle.CircleNonPositiveRadius |
| Triangle.Barycentric | a2.js:352-366 | the three weights sum to one |
| Triangle.DenominatorsAreArea | a2.js:354-362 | the two denominators of calc_barycentric are minus and plus twice the signed area |
| Triangle.NumeratorsAreAreas | a2.js:356-362 | the two numerators are signed areas of sub-triangles with p |
| Triangle.AreasAddUp | a2.js:361-363 | the three sub-triangle areas add up to the triangle's area |
| Triangle.WeightsAreAreaRatios | a2.js:352-366 | alpha, beta and gamma are the areas of (b, c, p), (c, a, p) and (a, b, p) over the area of (a, b, c) |
| Triangle.WeightsReconstructPoint | a2.js:352-366 | alpha a + beta b + gamma c = p in both coordinates |
| Triangle.VertexWeights | a2.js:352-366 | the weights of the vertices are (1, 0, 0), (0, 1, 0) and (0, 0, 1) |
| Triangle.VerticesInside | a2.js:368-377 | every vertex passes in_triangle |
| Triangle.InTriangle | a2.js:368-377 | in_triangle holds exactly when p is on the inner side of all three edges, for either winding, and never for zero area |
| Triangle.MinOf | a2.js:385-397 | get_min's fold is at most the start value and every coordinate, and equals one of them |
| Triangle.MaxOf | a2.js:399-411 | get_max's fold is at least the start value and every coordinate, and equals one of them |
| Triangle.GetMin | a2.js:385-397 | the get_min loop computes MinOf from Number.MAX_VALUE on both axes |
| Triangle.GetMax | a2.js:399-411 | the get_max loop computes MaxOf from Number.MIN_VALUE on both axes |
| Triangle.MinOfThree | a2.js:416 | get_min of three vertices is the least coordinate, unless the start value is smaller |
| Triangle.MaxOfThree | a2.js:417 | get_max of three vertices is the greatest coordinate, unless the start value is larger |
| Triangle.CeilOfMax | a2.js:401-421 | Number.MIN_VALUE lies strictly between 0 and 1, so rounding up get_max's result gives the greatest integer coordinate, or 1 when all are at most 0 |
| Triangle.ScanBoxOfIntegers | a2.js:416-421 | i_min and j_min are the least vertex coordinates; i_max and j_max are the greatest, or 1 |
| Triangle.ScanBox | a2.js:416-421 | the scan box contains all three vertices |
| Triangle.FillTriangle | a2.js:380-435 | fill_triangle returns exactly FillSpec and one colour per pixel |
| Triangle.BoundingBox | a2.js:416-421 | the floors and ceilings of get_min and get_max are exactly ScanBox |
| Triangle.ScanPixels | a2.js:423-433 | the two nested loops emit exactly the column-major scan of the box, keeping the points that pass in_triangle |
| Triangle.ColumnMembers | a2.js:425-432 | a column holds exactly the points of that column, within the row range, that pass in_triangle |
| Triangle.ScanMembers | a2.js:423-433 | a scan holds exactly the points of its ranges that pass in_triangle |
| Triangle.FillSpec | a2.js:380-435 | a point is filled exactly when it is in the scan box and passes in_triangle |
| Triangle.FillBoxMembers | a2.js:423-433 | the scan of any box holds exactly its points that pass in_triangle |
| Triangle.FillContainsVertices | a2.js:380-435 | every vertex of a triangle with non-zero area is filled |
| Triangle.InTriangleWithinVertexBox | a2.js:368-377 | a point that passes in_triangle lies between the least and the greatest vertex coordinates |
| Triangle.FillIsExactlyInTriangle | a2.js:380-435 | for coordinates a double can hold, the filled points are exactly the integer points passing in_triangle |
| Triangle.DegenerateFillsNothing | a2.js:352-377 | a zero-area triangle fills no pixel |
| Triangle.ColumnOrdered | a2.js:425-432 | a column is strictly increasing in y |
| Triangle.ScanOrdered | a2.js:423-433 | a scan is strictly increasing in column-major order |
| Triangle.FillOrdered | a2.js:423-434 | the fill is in strict column-major order, so no pixel is emitted twice |
| Triangle.FillBoxOrdered | a2.js:423-433 | the scan of any box is in strict column-major order and has no duplicates |
| Polygon.IsConvex | a2.js:337-343 | isConvex(v1, v2, v3) holds exactly when v1, v2, v3 run counter-clockwise |
| Polygon.CollinearNotConvex | a2.js:342 | collinear points are never a convex turn |
| Polygon.ConvexNotBothWays | a2.js:337-343 | a turn and its reverse are never both convex |
| Polygon.ConvexRotates | a2.js:337-343 | convexity of a turn is invariant under rotating its three points |
| Polygon.ConvexAt | a2.js:450-458 | the three branches of the convexity test are the turn at i with cyclic neighbours (i - 1) mod n and (i + 1) mod n |
| Polygon.Convexity | a2.js:449-461 | the convexity loop with its early break returns true exactly when every turn is convex |
| Polygon.Fan | a2.js:464-471 | the fan has n - 2 triangles (p0, pk+1, pk+2), or none below three vertices |
| Polygon.FanTriangles | a2.js:464-471 | the triangulation loop computes exactly Fan |
| Polygon.DrawPolygon | a2.js:439-481 | drawPolygon returns the concatenated fills of the fan when convex and nothing otherwise, with one colour per pixel |
| Polygon.FillFan | a2.js:473-478 | the concatenation loop computes exactly the fills of the triangles in order |
| Polygon.FillAllMembers | a2.js:473-478 | a pixel is in the concatenation exactly when some triangle's fill holds it |
| Polygon.PolygonMembers | a2.js:439-481 | a pixel is drawn exactly when the polygon is convex and the pixel is in some fan triangle's scan box and passes in_triangle |
| Polygon.PolygonPixelsInFan | a2.js:439-481 | for coordinates a double can hold, the drawn pixels are exactly the integer points of the fan triangles of a convex polygon |
| Polygon.TwoVerticesNotConvex | a2.js:450-457 | two vertices are never convex |
| Polygon.PolygonSpec | a2.js:439-481 | a polygon of zero or two vertices draws nothing |
| Polygon.TriangleDrawnIffCounterClockwise | a2.js:439-481 | a three-vertex polygon is filled as a triangle when counter-clockwise and draws nothing otherwise |
| Polygon.ReversedConvexNotConvex | a2.js:449-461 | a convex polygon listed in reverse order is not convex |
| Polygon.RectangleIsConvex | a2.js:449-461 | an axis-aligned rectangle listed counter-clockwise is convex |
| Polygon.QuadrilateralConvex | a2.js:449-461 | four vertices are convex exactly when their four cyclic turns are |
| Polygon.DartIsNotConvex | a2.js:449-461 | a dart, a quadrilateral with one reflex vertex such as (0, 0), (10, 5), (0, 10), (3, 5), is not convex |
| Curve.GetNextPt | a2.js:542-547 | get_next_pt lies a quarter of the way from the current point to the other one |
| Curve.ChaikinPointExact | a2.js:540-547 | the rounded quarter point is (3c + o + 2) div 4 in each coordinate |
| Curve.ChaikinPoint | a2.js:540-547 | the rounded quarter point lies between the two points on each axis |
| Curve.PassUpTo | a2.js:557-591 | the first m points contribute 2m points, less one for each open end reached |
| Curve.Pass | a2.js:554-591 | one pass makes 2n points when closed and 2n - 2 when open |
| Curve.ChaikinPass | a2.js:554-591 | the inner loop builds exactly Pass, with one colour per point |
| Curve.PushNeighbours | a2.js:580-590 | one iteration appends the left and the right point where they exist |
| Curve.LeftPoint | a2.js:559-576 | curr_left_pt exists exactly when the chain is closed or the point is not the first |
| Curve.RightPoint | a2.js:559-578 | curr_right_pt exists exactly when the chain is closed or the point is not the last |
| Curve.NeighbourPoints | a2.js:559-578 | the three branches compute curr_left_pt and curr_right_pt as LeftPoint and RightPoint |
| Curve.CutEdges | a2.js:557-591 | cutting every edge of an open chain gives 2(n - 1) points |
| Curve.OpenPassUpToIndex | a2.js:557-591 | on an open chain, points 2k and 2k + 1 are the quarter points of edge k from each end |
| Curve.OpenPassCutsEdges | a2.js:557-591 | an open pass is exactly corner cutting of every edge |
| Curve.ClosedPassUpToIndex | a2.js:557-591 | on a closed chain, points 2i and 2i + 1 are point i's left and right quarter points |
| Curve.ClosedPassIndex | a2.js:562-578 | a closed pass cuts towards the cyclic neighbours (i - 1) mod n and (i + 1) mod n |
| Curve.Iterate | a2.js:551-595 | repeated passes never leave exactly one point |
| Curve.DrawCurve | a2.js:532-599 | drawCurve returns new_points after 15 passes for "chaikin" and nothing for any other type, with one colour per point |
| Curve.ChaikinPasses | a2.js:551-595 | the 15-step countdown loop keeps the last pass's new_points, which is 15 passes over the control points |
| Curve.ClosedLength | a2.js:551-595 | a closed chain has n * 2^k points after k passes |
| Curve.OpenLength | a2.js:551-595 | an open chain has (n - 2) * 2^k + 2 points after k passes |
| Curve.OpenGrows | a2.js:551-595 | an open chain with three or more points grows with every pass |
| Curve.CurveSpec | a2.js:532-599 | after 15 passes, each doubling a closed chain, the curve has 2^15 n = 32768 n points when closed, 32768 (n - 2) + 2 when open, and none for no points or another type |
| Curve.EmptyStaysEmpty | a2.js:552-595 | no control points give no curve points |
| Curve.ChaikinPointWithin | a2.js:542-547 | a quarter point of two points in a box lies in the box |
| Curve.ContributionWithin | a2.js:557-591 | the points one vertex contributes stay in any box holding the chain |
| Curve.PassUpToWithin | a2.js:557-591 | a partial pass stays in any box holding the chain |
| Curve.IterateWithin | a2.js:551-595 | any number of passes stays in any box holding the control points |
| Curve.CurveWithin | a2.js:532-599 | every drawn curve point lies in any axis-aligned box that holds all control points |
| Curve.OtherTypesDrawNothing | a2.js:549 | a type other than "chaikin" draws nothing |

Definitions without a contract of their own are the vocabulary these contracts are written in, and each one's source lines are cited by a row above. They are Circle.Cardinal, Circle.Eight, Circle.Start, Triangle.Column, Triangle.Scan, Triangle.FillBox, Polygon.AllConvex, Polygon.FillAll and Curve.Contribution.

## Left out

The following are outside the model:

- **Other parts of `a2.js`:**
  - the WebGL / regl set-up and `drawPointsGPU` (`a2.js:44-246`), as GPU output;
  - the DOM handling (`a2.js:252-263`);
  - the command parser (`a2.js:266-303`).

  The drawing methods return what they would hand to `drawPointsGPU`.
- **Assumed inputs:**
  - coordinates are integers, as the parser's `parseInt` produces;
  - the device-pixel ratio is 1;
  - the current colour is a parameter.
- **Global state:** the assignments to globals, such as `colors`, `x`, `y`, `zed`, `paired_pixels` and `triangles`, are not modelled. No drawing result depends on them.
- **Bezier curves and an editing session:** a2.js does not contain them.
- **Arithmetic:** reals stand in for IEEE doubles in the line increments, barycentric weights and quarter points. Consequences:
  - Line.DrawLine: the running position is exact, while the source adds rounded doubles. The accumulated error stays far below 0.5, so the end point agrees; what differs is a sample that is exactly a half-integer here. From (0,0) to (-12,-7) sample 6 is exactly y = -3.5 and the model gives pixel (-6,-3), while six double additions of -7/12 give -3.5000000000000004, which rounds to -4. For the same reason Line.LineReversed holds for exact arithmetic only: in doubles the line from (0,0) to (-12,2) gives (-3,1) at index 3 and the reversed line gives (-3,0) there. When step is 0 the source divides 0 by 0; that value is never read.
  - Triangle.InTriangle: exact quotients replace double ones, so a point on an edge whose weight would round to a tiny negative double is accepted here. The source's tolerance `zed` is exactly 0.
  - Curve.ChaikinPoint: the quarter point is exact. The source computes `0.75 c + 0.25 o` in doubles, but for integer coordinates below 2^51 in magnitude every product and the sum are multiples of 1/4 that a double holds exactly, so the two agree there; they can differ only beyond that bound.
- **Crashes on degenerate input** become preconditions:
  - Polygon.DrawPolygon: requires a vertex count other than one. With one vertex the convexity loop reads the missing second vertex.
  - Curve.DrawCurve: requires a point count other than one for the "chaikin" type, for the same reason in the first pass.
- Triangle.FillIsExactlyInTriangle, Polygon.PolygonPixelsInFan: require coordinates no larger than Number.MAX_VALUE, as any double is. Above that bound the model's `get_min` would start below a vertex.
- Curve.LeftPoint: its contract says only when the point exists; which quarter point it is, is stated for a whole pass by Curve.ClosedPassIndex and Curve.OpenPassCutsEdges, which keeps the wrap-around index out of the per-point contract.
- Curve.RightPoint: likewise, its contract says only when the point exists; Curve.ClosedPassIndex and Curve.OpenPassCutsEdges say which point it is.
