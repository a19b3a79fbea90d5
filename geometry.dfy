/**
 * Shared vocabulary of the rasterisers in a2.js: integer pixels, real
 * points, RGBA colours, JavaScript's Math.round, the 2-vector helpers
 * (sub, cross, dot) and the pairing of a flat coordinate list into points.
 */
module Geometry {

  /** A pixel / integer point [x, y]. */
  datatype Point = Point(x: int, y: int)

  /** A point with real coordinates, as produced before rounding to a pixel. */
  datatype RealPoint = RealPoint(x: real, y: real)

  /** An [r, g, b, a] colour; the rasterisers tag every emitted pixel with one. */
  datatype Color = Color(r: int, g: int, b: int, a: int)

  /** JavaScript's Math.round: the nearest integer, halves rounded up (floor(v + 0.5)). */
  function Round(v: real): (n: int)
    ensures n as real - 0.5 <= v < n as real + 0.5
  {
    (v + 0.5).Floor
  }

  /** JavaScript's Math.ceil: the least integer not below v. */
  function Ceil(v: real): (n: int)
    ensures v <= n as real < v + 1.0
  {
    -((-v).Floor)
  }

  /** The `pixel` helper of a2.js: round both coordinates. */
  function Pixel(p: RealPoint): (q: Point)
    ensures q.x as real - 0.5 <= p.x < q.x as real + 0.5
    ensures q.y as real - 0.5 <= p.y < q.y as real + 0.5
  {
    Point(Round(p.x), Round(p.y))
  }

  function Sub(u: Point, v: Point): Point {
    Point(u.x - v.x, u.y - v.y)
  }

  /** The z-component of the cross product of two 2-vectors. */
  function Cross(u: Point, v: Point): int {
    u.x * v.y - u.y * v.x
  }

  function Dot(u: Point, v: Point): int {
    u.x * v.x + u.y * v.y
  }

  /** Twice the signed area of triangle (a, b, c): positive when a, b, c turn counter-clockwise. */
  function Area2(a: Point, b: Point, c: Point): int {
    Cross(Sub(b, a), Sub(c, a))
  }

  /** The colours list built beside a pixel list: the same colour n times. */
  function Uniform(c: Color, n: nat): (r: seq<Color>)
    ensures |r| == n
    ensures forall k :: 0 <= k < n ==> r[k] == c
  {
    seq(n, _ => c)
  }

  /** Pushing one more colour onto a run of one colour extends the run. */
  lemma UniformGrows(c: Color, n: nat)
    ensures Uniform(c, n) + [c] == Uniform(c, n + 1)
  {
  }

  /**
   * The points of a flat list [x0, y0, x1, y1, ...], as drawPolygon and
   * drawCurve pair them: coordinate pairs in order, a trailing odd
   * coordinate dropped.
   */
  function Pairs(coords: seq<int>): (ps: seq<Point>)
    ensures |ps| == |coords| / 2
    ensures forall k :: 0 <= k < |ps| ==> ps[k] == Point(coords[2 * k], coords[2 * k + 1])
    decreases |coords|
  {
    if |coords| < 2 then [] else [Point(coords[0], coords[1])] + Pairs(coords[2..])
  }

  /** The pairing loop `for (i = 0; i < points.length-1; i += 2)` of drawPolygon and drawCurve. */
  method PairUp(coords: seq<int>) returns (ps: seq<Point>)
    ensures ps == Pairs(coords)
  {
    ps := [];
    var i := 0;
    while i < |coords| - 1
      invariant 0 <= i <= |coords| && i % 2 == 0
      invariant |ps| == i / 2
      invariant forall k :: 0 <= k < |ps| ==> ps[k] == Point(coords[2 * k], coords[2 * k + 1])
    {
      ps := ps + [Point(coords[i], coords[i + 1])];
      i := i + 2;
    }
    assert |ps| == |coords| / 2;
  }

  /** An odd trailing coordinate contributes no point. */
  lemma PairsDropsOddTail(coords: seq<int>, z: int)
    requires |coords| % 2 == 0
    ensures Pairs(coords + [z]) == Pairs(coords)
  {
    var ps, qs := Pairs(coords + [z]), Pairs(coords);
    assert |ps| == |qs|;
    forall k | 0 <= k < |ps| ensures ps[k] == qs[k] {
      assert (coords + [z])[2 * k] == coords[2 * k];
      assert (coords + [z])[2 * k + 1] == coords[2 * k + 1];
    }
  }

  /** The wrap-around neighbours of index i among n: (i - 1 + n) % n and (i + 1) % n. */
  lemma CyclicNeighbours(n: int, i: int)
    requires n >= 2 && 0 <= i < n
    ensures (i - 1 + n) % n == if i == 0 then n - 1 else i - 1
    ensures (i + 1) % n == if i == n - 1 then 0 else i + 1
  {
    var prev := if i == 0 then n - 1 else i - 1;
    var next := if i == n - 1 then 0 else i + 1;
    ModOfShift(prev, n, if i == 0 then 0 else 1);
    ModOfShift(next, n, if i == n - 1 then 1 else 0);
  }

  lemma ModOfShift(a: int, n: int, q: int)
    requires 0 <= a < n && (q == 0 || q == 1)
    ensures (a + q * n) % n == a
  {
  }
}
