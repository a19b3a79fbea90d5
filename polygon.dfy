/**
 * isConvex and drawPolygon of a2.js. A flat coordinate list is paired into
 * vertices; the polygon is filled only when every vertex, with wrap-around,
 * makes a strict counter-clockwise turn. It is then split into a fan of
 * triangles from vertex 0 and the fill_triangle results are concatenated.
 * Any other polygon gives no pixels.
 */
module Polygon {
  import opened Geometry
  import opened Triangle

  /**
   * isConvex: the cross product of v3 - v2 and v1 - v2 is strictly positive,
   * that is, v1, v2, v3 run counter-clockwise.
   */
  predicate IsConvex(v1: Point, v2: Point, v3: Point): (convex: bool)
    ensures convex <==> Area2(v1, v2, v3) > 0
  {
    assert Cross(Sub(v3, v2), Sub(v1, v2)) == Area2(v1, v2, v3);
    Cross(Sub(v3, v2), Sub(v1, v2)) > 0
  }

  /** Collinear points never make a convex turn. */
  lemma CollinearNotConvex(v1: Point, v2: Point, v3: Point)
    requires Area2(v1, v2, v3) == 0
    ensures !IsConvex(v1, v2, v3)
  {
  }

  /** A turn and the same turn walked backwards are never both convex. */
  lemma ConvexNotBothWays(v1: Point, v2: Point, v3: Point)
    ensures !(IsConvex(v1, v2, v3) && IsConvex(v3, v2, v1))
  {
    assert Area2(v3, v2, v1) == -Area2(v1, v2, v3);
  }

  /** Starting the turn at another of its points does not change the answer. */
  lemma ConvexRotates(v1: Point, v2: Point, v3: Point)
    ensures IsConvex(v1, v2, v3) <==> IsConvex(v2, v3, v1)
  {
    assert Area2(v2, v3, v1) == Area2(v1, v2, v3);
  }

  // ---- the convexity loop ----

  /**
   * The test drawPolygon makes at vertex i: the last vertex precedes vertex
   * 0 and vertex 0 follows the last one, so the three branches are the turn
   * at i between its cyclic neighbours.
   */
  predicate ConvexAt(ps: seq<Point>, i: int): (convex: bool)
    requires |ps| >= 2 && 0 <= i < |ps|
    ensures convex <==> IsConvex(ps[(i - 1 + |ps|) % |ps|], ps[i], ps[(i + 1) % |ps|])
  {
    CyclicNeighbours(|ps|, i);
    if i == 0 then IsConvex(ps[|ps| - 1], ps[i], ps[i + 1])
    else if i == |ps| - 1 then IsConvex(ps[i - 1], ps[i], ps[0])
    else IsConvex(ps[i - 1], ps[i], ps[i + 1])
  }

  /** What the convexity loop concludes: true when every vertex passes (vacuously for no vertices). */
  predicate AllConvex(ps: seq<Point>) {
    |ps| != 1 && forall i :: 0 <= i < |ps| ==> ConvexAt(ps, i)
  }

  /** The convexity loop with its early break. */
  method Convexity(ps: seq<Point>) returns (convexity: bool)
    requires |ps| != 1
    ensures convexity <==> AllConvex(ps)
  {
    convexity := true;
    var i := 0;
    while i < |ps|
      invariant 0 <= i <= |ps|
      invariant convexity
      invariant forall k :: 0 <= k < i ==> ConvexAt(ps, k)
    {
      if i == 0 {
        convexity := IsConvex(ps[|ps| - 1], ps[i], ps[i + 1]);
      } else if i == |ps| - 1 {
        convexity := IsConvex(ps[i - 1], ps[i], ps[0]);
      } else {
        convexity := IsConvex(ps[i - 1], ps[i], ps[i + 1]);
      }
      assert convexity == ConvexAt(ps, i);
      if !convexity {
        break;
      }
      i := i + 1;
    }
  }

  // ---- the fan ----

  /** The triangles (p0, p_i, p_(i+1)) for i = 1 .. n - 2. */
  function Fan(ps: seq<Point>): (ts: seq<Tri>)
    ensures |ts| == if |ps| < 3 then 0 else |ps| - 2
    ensures forall k :: 0 <= k < |ts| ==> ts[k] == Tri(ps[0], ps[k + 1], ps[k + 2])
  {
    if |ps| < 3 then [] else seq(|ps| - 2, k requires 0 <= k < |ps| - 2 => Tri(ps[0], ps[k + 1], ps[k + 2]))
  }

  /** The triangulation loop of drawPolygon. */
  method FanTriangles(ps: seq<Point>) returns (triangles: seq<Tri>)
    ensures triangles == Fan(ps)
  {
    triangles := [];
    var i := 1;
    while i < |ps| - 1
      invariant 1 <= i && (i <= |ps| - 1 || i == 1)
      invariant |triangles| == i - 1
      invariant forall k :: 0 <= k < i - 1 ==> triangles[k] == Tri(ps[0], ps[k + 1], ps[k + 2])
    {
      triangles := triangles + [Tri(ps[0], ps[i], ps[i + 1])];
      i := i + 1;
    }
  }

  /** The fills of the triangles, concatenated in order. */
  function FillAll(ts: seq<Tri>): seq<Point> {
    if ts == [] then [] else FillAll(ts[..|ts| - 1]) + FillSpec(ts[|ts| - 1])
  }

  /**
   * What drawPolygon needs of its input: not exactly one vertex, for which
   * the convexity loop passes the missing paired_pixels[1] to isConvex.
   */
  predicate Drawable(coords: seq<int>) {
    |Pairs(coords)| != 1
  }

  /**
   * The pixels drawPolygon hands to the renderer: the fan's fills when the
   * polygon is convex, nothing otherwise, and so nothing for fewer than three
   * vertices.
   */
  function PolygonSpec(coords: seq<int>): (points: seq<Point>)
    requires Drawable(coords)
    ensures |Pairs(coords)| < 3 ==> points == []
  {
    var ps := Pairs(coords);
    assert |ps| == 2 ==> !AllConvex(ps) by {
      if |ps| == 2 {
        TwoVerticesNotConvex(ps);
      }
    }
    if AllConvex(ps) then FillAll(Fan(ps)) else []
  }

  /** drawPolygon, returning what it hands to drawPointsGPU. */
  method DrawPolygon(coords: seq<int>, color: Color) returns (points: seq<Point>, colors: seq<Color>)
    requires Drawable(coords)
    ensures points == PolygonSpec(coords)
    ensures colors == Uniform(color, |points|)
  {
    var ps := PairUp(coords);
    var convexity := Convexity(ps);
    var triangles: seq<Tri> := [];
    if convexity {
      triangles := FanTriangles(ps);
    }
    assert triangles == if AllConvex(ps) then Fan(ps) else [];
    points, colors := FillFan(triangles, color);
  }

  /** The loop of drawPolygon that concatenates the fill_triangle results. */
  method FillFan(triangles: seq<Tri>, color: Color) returns (points: seq<Point>, colors: seq<Color>)
    ensures points == FillAll(triangles)
    ensures colors == Uniform(color, |points|)
  {
    points, colors := [], [];
    var i := 0;
    while i < |triangles|
      invariant 0 <= i <= |triangles|
      invariant points == FillAll(triangles[..i])
      invariant colors == Uniform(color, |points|)
    {
      assert triangles[..i + 1][..i] == triangles[..i];
      var trianglePoints, triangleColors := FillTriangle(triangles[i], color);
      points := points + trianglePoints;
      colors := colors + triangleColors;
      i := i + 1;
    }
    assert triangles[..|triangles|] == triangles;
  }

  // ---- what gets drawn ----

  /** A pixel is drawn exactly when the polygon is convex and one fan triangle's fill emits it. */
  lemma {:induction false} FillAllMembers(ts: seq<Tri>, p: Point)
    ensures p in FillAll(ts) <==> exists k :: 0 <= k < |ts| && p in FillSpec(ts[k])
    decreases |ts|
  {
    if ts != [] {
      var init := ts[..|ts| - 1];
      FillAllMembers(init, p);
      if p in FillAll(ts) && p !in FillSpec(ts[|ts| - 1]) {
        var k :| 0 <= k < |init| && p in FillSpec(init[k]);
        assert init[k] == ts[k];
      }
      if exists k :: 0 <= k < |ts| && p in FillSpec(ts[k]) {
        var k :| 0 <= k < |ts| && p in FillSpec(ts[k]);
        if k < |ts| - 1 {
          assert init[k] == ts[k];
        }
      }
    }
  }

  /**
   * The drawn pixels of a convex polygon are the points of its scan boxes
   * that lie in a fan triangle; a polygon that is not convex draws nothing.
   */
  lemma PolygonMembers(coords: seq<int>, p: Point)
    requires Drawable(coords)
    ensures var ts := Fan(Pairs(coords));
      p in PolygonSpec(coords) <==>
        AllConvex(Pairs(coords)) &&
        exists k :: 0 <= k < |ts| && InBox(p, ScanBox(ts[k])) && InTriangle(p, ts[k])
  {
    var ps := Pairs(coords);
    if AllConvex(ps) {
      var ts := Fan(ps);
      FillAllMembers(ts, p);
    }
  }

  /**
   * For coordinates a double can hold, the drawn pixels of a convex polygon
   * are exactly the integer points that pass in_triangle for a fan triangle.
   */
  lemma PolygonPixelsInFan(coords: seq<int>, p: Point)
    requires Drawable(coords)
    requires forall k :: 0 <= k < |coords| ==> coords[k] as real <= MaxValue
    ensures var ts := Fan(Pairs(coords));
      p in PolygonSpec(coords) <==>
        AllConvex(Pairs(coords)) && exists k :: 0 <= k < |ts| && InTriangle(p, ts[k])
  {
    var ps := Pairs(coords);
    if AllConvex(ps) {
      var ts := Fan(ps);
      FillAllMembers(ts, p);
      forall k | 0 <= k < |ts| ensures p in FillSpec(ts[k]) <==> InTriangle(p, ts[k]) {
        FanTriangleExact(coords, k, p);
      }
    }
  }

  lemma FanTriangleExact(coords: seq<int>, k: int, p: Point)
    requires forall k :: 0 <= k < |coords| ==> coords[k] as real <= MaxValue
    requires 0 <= k < |Fan(Pairs(coords))|
    ensures p in FillSpec(Fan(Pairs(coords))[k]) <==> InTriangle(p, Fan(Pairs(coords))[k])
  {
    var t := Fan(Pairs(coords))[k];
    assert t.a == Point(coords[0], coords[1]);
    assert Min3(t.a.x, t.b.x, t.c.x) <= t.a.x && Min3(t.a.y, t.b.y, t.c.y) <= t.a.y;
    FillIsExactlyInTriangle(t, p);
  }

  /** Two vertices make no convex polygon: the cross product at vertex 0 is zero. */
  lemma TwoVerticesNotConvex(ps: seq<Point>)
    requires |ps| == 2
    ensures !AllConvex(ps)
  {
    assert !ConvexAt(ps, 0) by {
      CollinearNotConvex(ps[1], ps[0], ps[1]);
    }
  }

  /**
   * A triangle given as three vertices is filled when it runs
   * counter-clockwise and draws nothing when it runs clockwise.
   */
  lemma TriangleDrawnIffCounterClockwise(coords: seq<int>)
    requires |Pairs(coords)| == 3
    ensures var ps := Pairs(coords);
      && Drawable(coords)
      && (Area2(ps[0], ps[1], ps[2]) > 0 ==> PolygonSpec(coords) == FillSpec(Tri(ps[0], ps[1], ps[2])))
      && (Area2(ps[0], ps[1], ps[2]) <= 0 ==> PolygonSpec(coords) == [])
  {
    var ps := Pairs(coords);
    assert Area2(ps[2], ps[0], ps[1]) == Area2(ps[0], ps[1], ps[2]);
    assert Area2(ps[1], ps[2], ps[0]) == Area2(ps[0], ps[1], ps[2]);
    assert AllConvex(ps) <==> ConvexAt(ps, 0) && ConvexAt(ps, 1) && ConvexAt(ps, 2);
    if AllConvex(ps) {
      var ts := Fan(ps);
      assert ts[..0] == [];
      assert FillAll(ts) == FillAll(ts[..0]) + FillSpec(ts[0]);
    }
  }

  function Reversed(ps: seq<Point>): (rs: seq<Point>)
    ensures |rs| == |ps| && forall k :: 0 <= k < |ps| ==> rs[k] == ps[|ps| - 1 - k]
  {
    seq(|ps|, k requires 0 <= k < |ps| => ps[|ps| - 1 - k])
  }

  /**
   * A convex polygon listed in the opposite (clockwise) order is not convex,
   * so it draws nothing.
   */
  lemma ReversedConvexNotConvex(ps: seq<Point>)
    requires |ps| >= 3 && AllConvex(ps)
    ensures !AllConvex(Reversed(ps))
  {
    var n, rs := |ps|, Reversed(ps);
    assert ConvexAt(ps, n - 2);
    ConvexNotBothWays(ps[n - 3], ps[n - 2], ps[n - 1]);
    assert !ConvexAt(rs, 1);
  }

  /** An axis-aligned rectangle listed counter-clockwise is convex, so it is filled. */
  lemma RectangleIsConvex(x0: int, y0: int, w: int, h: int)
    requires w > 0 && h > 0
    ensures AllConvex(Pairs([x0, y0, x0 + w, y0, x0 + w, y0 + h, x0, y0 + h]))
  {
    var a, b, c, d := Point(x0, y0), Point(x0 + w, y0), Point(x0 + w, y0 + h), Point(x0, y0 + h);
    assert Pairs([x0, y0, x0 + w, y0, x0 + w, y0 + h, x0, y0 + h]) == [a, b, c, d];
    RectangleTurns(x0, y0, w, h);
    QuadrilateralConvex(a, b, c, d);
  }

  lemma RectangleTurns(x0: int, y0: int, w: int, h: int)
    requires w > 0 && h > 0
    ensures IsConvex(Point(x0, y0 + h), Point(x0, y0), Point(x0 + w, y0))
    ensures IsConvex(Point(x0, y0), Point(x0 + w, y0), Point(x0 + w, y0 + h))
    ensures IsConvex(Point(x0 + w, y0), Point(x0 + w, y0 + h), Point(x0, y0 + h))
    ensures IsConvex(Point(x0 + w, y0 + h), Point(x0, y0 + h), Point(x0, y0))
  {
    assert w * h > 0;
  }

  /** A quadrilateral is convex exactly when all four of its turns are. */
  lemma QuadrilateralConvex(a: Point, b: Point, c: Point, d: Point)
    ensures AllConvex([a, b, c, d]) <==> IsConvex(d, a, b) && IsConvex(a, b, c) && IsConvex(b, c, d) && IsConvex(c, d, a)
  {
    var q := [a, b, c, d];
    assert ConvexAt(q, 0) == IsConvex(d, a, b);
    assert ConvexAt(q, 1) == IsConvex(a, b, c);
    assert ConvexAt(q, 2) == IsConvex(b, c, d);
    assert ConvexAt(q, 3) == IsConvex(c, d, a);
    if IsConvex(d, a, b) && IsConvex(a, b, c) && IsConvex(b, c, d) && IsConvex(c, d, a) {
      forall i | 0 <= i < |q| ensures ConvexAt(q, i) {
        assert i == 0 || i == 1 || i == 2 || i == 3;
      }
    }
  }

  /**
   * A dart, such as (0, 0), (10, 5), (0, 10), (3, 5), has an inward vertex:
   * it is not convex and draws nothing.
   */
  lemma DartIsNotConvex(x: int, y: int, a: int, b: int)
    requires a > 0 && b > 0
    ensures !AllConvex(Pairs([x, y, x + 2 * a, y + a, x, y + 2 * a, x + b, y + a]))
  {
    var ps := Pairs([x, y, x + 2 * a, y + a, x, y + 2 * a, x + b, y + a]);
    assert ps == [Point(x, y), Point(x + 2 * a, y + a), Point(x, y + 2 * a), Point(x + b, y + a)];
    assert !ConvexAt(ps, 3) by {
      assert ConvexAt(ps, 3) == IsConvex(ps[2], ps[3], ps[0]);
      assert a * b > 0;
    }
  }
}
