/**
 * drawCircle of a2.js: the integer midpoint circle algorithm. The centre and
 * radius are rounded once; from then on everything is integer. Four
 * cardinal pixels come first, then each pass of `while (i < j)` updates the
 * midpoint error term and emits the eight reflections of (i, j).
 */
module Circle {
  import opened Geometry

  /** The loop variables i, j and the error term d. */
  datatype State = State(i: int, j: int, d: int)

  /**
   * The error term relation: d is the midpoint test value of (i + 1, j - 1/2)
   * less a quarter, scaled by 4 to stay integral.
   */
  predicate ErrorTerm(s: State, r: int) {
    4 * s.d == 4 * (s.i + 1) * (s.i + 1) + (2 * s.j - 1) * (2 * s.j - 1) - 4 * r * r - 1
  }

  /** The initial state `i = 0, j = r, d = 1 - r`. */
  function Start(r: int): State {
    State(0, r, 1 - r)
  }

  /**
   * One update of the loop body: when d >= 0, j drops and d is corrected by
   * -2j; then i grows and d is corrected by 2i + 1.
   */
  function MidpointStep(s: State): (t: State)
    ensures t.i == s.i + 1
    ensures s.d >= 0 ==> t.j == s.j - 1
    ensures s.d < 0 ==> t.j == s.j
    ensures t.j - t.i < s.j - s.i
  {
    var (j, d) := if s.d >= 0 then (s.j - 1, s.d - 2 * (s.j - 1)) else (s.j, s.d);
    State(s.i + 1, j, d + 2 * (s.i + 1) + 1)
  }

  /** The four cardinal pixels emitted before the loop. */
  function Cardinal(c: Point, r: int): seq<Point> {
    [Point(c.x, c.y + r), Point(c.x, c.y - r), Point(c.x + r, c.y), Point(c.x - r, c.y)]
  }

  /** The eight reflections of (i, j) about the centre, in the order of the `splice`. */
  function Eight(c: Point, i: int, j: int): seq<Point> {
    [Point(c.x + i, c.y + j), Point(c.x + i, c.y - j),
     Point(c.x - i, c.y + j), Point(c.x - i, c.y - j),
     Point(c.x + j, c.y + i), Point(c.x + j, c.y - i),
     Point(c.x - j, c.y + i), Point(c.x - j, c.y - i)]
  }

  /** What the loop emits from state s onwards: eight pixels per pass. */
  function Octants(c: Point, s: State): (pixels: seq<Point>)
    ensures |pixels| == 8 * Rounds(s)
    decreases s.j - s.i
  {
    if s.i < s.j then
      var t := MidpointStep(s);
      Eight(c, t.i, t.j) + Octants(c, t)
    else
      []
  }

  /**
   * All pixels of drawCircle around the rounded centre c with rounded radius
   * r: the four cardinal pixels, then eight per pass of the loop.
   */
  function CircleSpec(c: Point, r: int): (pixels: seq<Point>)
    ensures |pixels| == 4 + 8 * Rounds(Start(r))
  {
    Cardinal(c, r) + Octants(c, Start(r))
  }

  /**
   * drawCircle, returning what it hands to drawPointsGPU: the rounded centre
   * and radius, the midpoint loop, then one colour per pixel.
   */
  method DrawCircle(x0: real, y0: real, r: real, color: Color)
    returns (pixels: seq<Point>, colors: seq<Color>)
    ensures pixels == CircleSpec(Point(Round(x0), Round(y0)), Round(r))
    ensures colors == Uniform(color, |pixels|)
  {
    var ic, jc := Round(x0), Round(y0);
    var rad := Round(r);
    pixels := MidpointCircle(ic, jc, rad);
    colors := [];
    for k := 0 to |pixels|
      invariant colors == Uniform(color, k)
    {
      colors := colors + [color];
    }
  }

  /** The cardinal pixels and the `while (i < j)` loop of drawCircle, after rounding. */
  method MidpointCircle(ic: int, jc: int, rad: int) returns (pixels: seq<Point>)
    ensures pixels == CircleSpec(Point(ic, jc), rad)
  {
    var i, j := 0, rad;
    var d := 1 - rad;
    var c := Point(ic, jc);

    pixels := Cardinal(c, rad);
    while i < j
      invariant pixels + Octants(c, State(i, j, d)) == Cardinal(c, rad) + Octants(c, Start(rad))
      decreases j - i
    {
      ghost var before := State(i, j, d);
      if d >= 0 {
        j := j - 1;
        d := d - 2 * j;
      }
      i := i + 1;
      d := d + 2 * i + 1;
      assert State(i, j, d) == MidpointStep(before);
      assert Octants(c, before) == Eight(c, i, j) + Octants(c, State(i, j, d));
      pixels := pixels + Eight(c, i, j);
    }
  }

  /** The error term relation holds at `i = 0, j = r, d = 1 - r`. */
  lemma ErrorTermAtStart(r: int)
    ensures ErrorTerm(Start(r), r)
  {
    assert (2 * r - 1) * (2 * r - 1) == 4 * r * r - 4 * r + 1;
  }

  /** Both branches of the update keep the error term relation. */
  lemma StepKeepsErrorTerm(s: State, r: int)
    requires ErrorTerm(s, r)
    ensures ErrorTerm(MidpointStep(s), r)
  {
    var t := MidpointStep(s);
    assert 4 * (t.i + 1) * (t.i + 1) == 4 * (s.i + 1) * (s.i + 1) + 8 * s.i + 12;
    if s.d >= 0 {
      assert (2 * t.j - 1) * (2 * t.j - 1) == (2 * s.j - 1) * (2 * s.j - 1) - 8 * s.j + 8;
    }
  }

  /**
   * The test `d >= 0` asks whether the midpoint (i + 1, j - 1/2) lies strictly
   * outside the circle: 4((i + 1)^2 + (j - 1/2)^2) > 4r^2.
   */
  lemma DecisionIsMidpointTest(s: State, r: int)
    requires ErrorTerm(s, r)
    ensures s.d >= 0 <==> 4 * (s.i + 1) * (s.i + 1) + (2 * s.j - 1) * (2 * s.j - 1) > 4 * r * r
  {
  }

  /** For r <= 0 the loop does not run: only the four cardinal pixels. */
  lemma CircleNonPositiveRadius(c: Point, r: int)
    requires r <= 0
    ensures CircleSpec(c, r) == Cardinal(c, r)
  {
  }

  /** How many passes the loop makes from state s. */
  function Rounds(s: State): nat
    decreases s.j - s.i
  {
    if s.i < s.j then 1 + Rounds(MidpointStep(s)) else 0
  }

  /** A positive radius makes at least one pass: at least twelve pixels. */
  lemma CircleLength(c: Point, r: int)
    requires r > 0
    ensures |CircleSpec(c, r)| >= 12
  {
    assert Rounds(Start(r)) >= 1;
  }

  // ---- 8-fold symmetry ----

  /** Reflection in the diagonal through the centre. */
  function SwapAxes(c: Point, p: Point): Point {
    Point(c.x + (p.y - c.y), c.y + (p.x - c.x))
  }

  /** Reflection in the vertical line through the centre. */
  function MirrorX(c: Point, p: Point): Point {
    Point(2 * c.x - p.x, p.y)
  }

  /** Reflection in the horizontal line through the centre. */
  function MirrorY(c: Point, p: Point): Point {
    Point(p.x, 2 * c.y - p.y)
  }

  /** Closed under the three reflections that generate the symmetries of the square. */
  ghost predicate Symmetric(c: Point, s: seq<Point>) {
    forall p :: p in s ==> SwapAxes(c, p) in s && MirrorX(c, p) in s && MirrorY(c, p) in s
  }

  lemma SymmetricConcat(c: Point, a: seq<Point>, b: seq<Point>)
    requires Symmetric(c, a) && Symmetric(c, b)
    ensures Symmetric(c, a + b)
  {
  }

  /** The three reflections of p are the elements a, b and d of e. */
  lemma ImagesIn(c: Point, p: Point, e: seq<Point>, a: nat, b: nat, d: nat)
    requires a < |e| && b < |e| && d < |e|
    requires SwapAxes(c, p) == e[a] && MirrorX(c, p) == e[b] && MirrorY(c, p) == e[d]
    ensures SwapAxes(c, p) in e && MirrorX(c, p) in e && MirrorY(c, p) in e
  {
  }

  lemma EightSymmetric(c: Point, i: int, j: int)
    ensures Symmetric(c, Eight(c, i, j))
  {
    var e := Eight(c, i, j);
    forall p | p in e ensures SwapAxes(c, p) in e && MirrorX(c, p) in e && MirrorY(c, p) in e {
      if p == e[0] {
        ImagesIn(c, p, e, 4, 2, 1);
      } else if p == e[1] {
        ImagesIn(c, p, e, 6, 3, 0);
      } else if p == e[2] {
        ImagesIn(c, p, e, 5, 0, 3);
      } else if p == e[3] {
        ImagesIn(c, p, e, 7, 1, 2);
      } else if p == e[4] {
        ImagesIn(c, p, e, 0, 6, 5);
      } else if p == e[5] {
        ImagesIn(c, p, e, 2, 7, 4);
      } else if p == e[6] {
        ImagesIn(c, p, e, 1, 4, 7);
      } else {
        ImagesIn(c, p, e, 3, 5, 6);
      }
    }
  }

  lemma CardinalSymmetric(c: Point, r: int)
    ensures Symmetric(c, Cardinal(c, r))
  {
    var e := Cardinal(c, r);
    forall p | p in e ensures SwapAxes(c, p) in e && MirrorX(c, p) in e && MirrorY(c, p) in e {
      if p == e[0] {
        ImagesIn(c, p, e, 2, 0, 1);
      } else if p == e[1] {
        ImagesIn(c, p, e, 3, 1, 0);
      } else if p == e[2] {
        ImagesIn(c, p, e, 0, 3, 2);
      } else {
        ImagesIn(c, p, e, 1, 2, 3);
      }
    }
  }

  lemma {:induction false} OctantsSymmetric(c: Point, s: State)
    ensures Symmetric(c, Octants(c, s))
    decreases s.j - s.i
  {
    if s.i < s.j {
      var t := MidpointStep(s);
      EightSymmetric(c, t.i, t.j);
      OctantsSymmetric(c, t);
      SymmetricConcat(c, Eight(c, t.i, t.j), Octants(c, t));
    }
  }

  /** The pixel set is symmetric under the circle's 8-fold reflections. */
  lemma CircleSymmetric(c: Point, r: int)
    ensures Symmetric(c, CircleSpec(c, r))
  {
    OctantsSymmetric(c, Start(r));
    CardinalSymmetric(c, r);
    SymmetricConcat(c, Cardinal(c, r), Octants(c, Start(r)));
  }

  // ---- distance to the centre ----

  function DistSq(p: Point, c: Point): int {
    (p.x - c.x) * (p.x - c.x) + (p.y - c.y) * (p.y - c.y)
  }

  /**
   * The point (i + 1, j + 1/2) is outside the circle:
   * 4(i + 1)^2 + (2j + 1)^2 > 4r^2, written out.
   */
  predicate Above(s: State, r: int) {
    4 * (s.i * s.i) + 8 * s.i + 4 * (s.j * s.j) + 4 * s.j + 5 > 4 * (r * r)
  }

  /**
   * The point (i, j - 1/2) is inside or on the circle:
   * 4i^2 + (2j - 1)^2 <= 4r^2, written out.
   */
  predicate Below(s: State, r: int) {
    4 * (s.i * s.i) + 4 * (s.j * s.j) - 4 * s.j + 1 <= 4 * (r * r)
  }

  /** What the loop knows at its head. */
  predicate HeadInvariant(s: State, r: int) {
    && ErrorTerm(s, r)
    && Above(s, r)
    && (s.i < s.j ==> Below(s, r))
    && 0 <= s.i && s.j <= r
  }

  /** The error term relation with the squares multiplied out. */
  lemma ErrorTermExpanded(s: State, r: int)
    ensures ErrorTerm(s, r) <==>
      4 * s.d == 4 * (s.i * s.i) + 8 * s.i + 4 * (s.j * s.j) - 4 * s.j + 4 - 4 * (r * r)
  {
    assert 4 * (s.i + 1) * (s.i + 1) == 4 * (s.i * s.i) + 8 * s.i + 4;
    assert (2 * s.j - 1) * (2 * s.j - 1) == 4 * (s.j * s.j) - 4 * s.j + 1;
    assert 4 * r * r == 4 * (r * r);
  }

  lemma HeadInvariantAtStart(r: int)
    requires r >= 0
    ensures HeadInvariant(Start(r), r)
  {
    ErrorTermAtStart(r);
  }

  /** (a + 1)^2 and (a - 1)^2 in terms of a^2, for a neighbour b of a. */
  lemma SquareOfNeighbour(a: int, b: int)
    requires b == a + 1 || b == a - 1
    ensures b * b == a * a + 2 * (b - a) * a + 1
  {
  }

  /**
   * One pass from a state satisfying the head invariant emits a pixel
   * (i', j') with r^2 - j' <= i'^2 + j'^2 <= r^2 + j' and reaches a state
   * that satisfies it again.
   */
  lemma StepBounds(s: State, r: int)
    requires HeadInvariant(s, r) && s.i < s.j
    ensures HeadInvariant(MidpointStep(s), r)
    ensures var t := MidpointStep(s);
      r * r - t.j <= t.i * t.i + t.j * t.j <= r * r + t.j
  {
    var t := MidpointStep(s);
    StepKeepsErrorTerm(s, r);
    ErrorTermExpanded(s, r);
    SquareOfNeighbour(s.i, t.i);
    if s.d >= 0 {
      SquareOfNeighbour(s.j, t.j);
    }
  }

  lemma EightDistance(c: Point, i: int, j: int, p: Point)
    requires p in Eight(c, i, j)
    ensures DistSq(p, c) == i * i + j * j
  {
  }

  lemma DistSqOfOffset(p: Point, c: Point, u: int, v: int)
    requires p.x - c.x == u && p.y - c.y == v
    ensures DistSq(p, c) == u * u + v * v
  {
  }

  lemma CardinalDistance(c: Point, r: int, p: Point)
    requires p in Cardinal(c, r)
    ensures DistSq(p, c) == r * r
  {
    if p == Point(c.x, c.y + r) {
      DistSqOfOffset(p, c, 0, r);
    } else if p == Point(c.x, c.y - r) {
      DistSqOfOffset(p, c, 0, -r);
    } else if p == Point(c.x + r, c.y) {
      DistSqOfOffset(p, c, r, 0);
    } else {
      DistSqOfOffset(p, c, -r, 0);
    }
  }

  lemma {:induction false} OctantsNearCircle(c: Point, s: State, r: int, p: Point)
    requires HeadInvariant(s, r)
    requires p in Octants(c, s)
    ensures r * r - r <= DistSq(p, c) <= r * r + r
    decreases s.j - s.i
  {
    var t := MidpointStep(s);
    assert s.i < s.j;
    StepBounds(s, r);
    if p in Eight(c, t.i, t.j) {
      EightDistance(c, t.i, t.j, p);
    } else {
      OctantsNearCircle(c, t, r, p);
    }
  }

  /**
   * Every pixel lies within one pixel of the circle: its squared distance to
   * the centre is between r^2 - r and r^2 + r, hence between (r-1)^2 and
   * (r+1)^2.
   */
  lemma CircleNearRadius(c: Point, r: int, p: Point)
    requires r >= 0
    requires p in CircleSpec(c, r)
    ensures r * r - r <= DistSq(p, c) <= r * r + r
  {
    if p in Cardinal(c, r) {
      CardinalDistance(c, r, p);
    } else {
      HeadInvariantAtStart(r);
      OctantsNearCircle(c, Start(r), r, p);
    }
  }
}
