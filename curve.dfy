/**
 * drawCurve of a2.js, the Chaikin branch: 15 passes of corner cutting. Each
 * pass replaces every control point by the points a quarter of the way
 * towards its left and its right neighbour, rounded to pixels; an open
 * chain's end points have only their inward neighbour, a closed one wraps
 * around. Any other curve type draws nothing.
 *
 * Coordinates are integers, and the quarter points are computed exactly.
 */
module Curve {
  import opened Geometry

  datatype Option<T> = None | Some(value: T)

  /** The fixed number of passes drawCurve makes. */
  const Passes: nat := 15

  /**
   * get_next_pt: three quarters of the current point plus one quarter of the
   * other, the point a quarter of the way from curr to other.
   */
  function GetNextPt(curr: Point, other: Point): (q: RealPoint)
    ensures q.x == curr.x as real + (other.x - curr.x) as real / 4.0
    ensures q.y == curr.y as real + (other.y - curr.y) as real / 4.0
  {
    RealPoint(0.75 * curr.x as real + 0.25 * other.x as real, 0.75 * curr.y as real + 0.25 * other.y as real)
  }

  /**
   * pixel(get_next_pt(curr, other)): one new point of a pass. It never leaves
   * the range spanned by the two points it is made from.
   */
  function ChaikinPoint(curr: Point, other: Point): (q: Point)
    ensures curr.x <= q.x <= other.x || other.x <= q.x <= curr.x
    ensures curr.y <= q.y <= other.y || other.y <= q.y <= curr.y
  {
    QuarterPointBetween(curr, other);
    Pixel(GetNextPt(curr, other))
  }

  lemma QuarterPointBetween(curr: Point, other: Point)
    ensures var g := GetNextPt(curr, other);
      && (curr.x <= Round(g.x) <= other.x || other.x <= Round(g.x) <= curr.x)
      && (curr.y <= Round(g.y) <= other.y || other.y <= Round(g.y) <= curr.y)
  {
    assert GetNextPt(curr, other).x == (3 * curr.x + other.x) as real / 4.0;
    assert GetNextPt(curr, other).y == (3 * curr.y + other.y) as real / 4.0;
    RoundOfQuarterPoint(3 * curr.x + other.x);
    RoundOfQuarterPoint(3 * curr.y + other.y);
  }

  lemma RoundOfQuarterPoint(n: int)
    ensures Round(n as real / 4.0) == (n + 2) / 4
  {
    var q, r := (n + 2) / 4, (n + 2) % 4;
    assert n + 2 == 4 * q + r && 0 <= r < 4;
    assert n as real / 4.0 + 0.5 == q as real + r as real / 4.0;
  }

  /** On integer points the rounded quarter point is (3 curr + other + 2) div 4 in each coordinate. */
  lemma ChaikinPointExact(curr: Point, other: Point)
    ensures ChaikinPoint(curr, other) == Point((3 * curr.x + other.x + 2) / 4, (3 * curr.y + other.y + 2) / 4)
  {
    assert GetNextPt(curr, other).x == (3 * curr.x + other.x) as real / 4.0;
    assert GetNextPt(curr, other).y == (3 * curr.y + other.y) as real / 4.0;
    RoundOfQuarterPoint(3 * curr.x + other.x);
    RoundOfQuarterPoint(3 * curr.y + other.y);
  }

  // ---- one pass ----

  /**
   * curr_left_pt at point i: towards the previous point, or the last one when
   * closed; the first point of an open chain has none.
   */
  function LeftPoint(ps: seq<Point>, i: int, closed: bool): (left: Option<Point>)
    requires |ps| >= 2 && 0 <= i < |ps|
    ensures left.Some? <==> closed || i > 0
  {
    if i == 0 then (if closed then Some(ChaikinPoint(ps[i], ps[|ps| - 1])) else None)
    else Some(ChaikinPoint(ps[i], ps[i - 1]))
  }

  /**
   * curr_right_pt at point i: towards the next point, or the first one when
   * closed; the last point of an open chain has none.
   */
  function RightPoint(ps: seq<Point>, i: int, closed: bool): (right: Option<Point>)
    requires |ps| >= 2 && 0 <= i < |ps|
    ensures right.Some? <==> closed || i < |ps| - 1
  {
    if i == |ps| - 1 then (if closed then Some(ChaikinPoint(ps[i], ps[0])) else None)
    else Some(ChaikinPoint(ps[i], ps[i + 1]))
  }

  function ToSeq(o: Option<Point>): seq<Point> {
    if o.Some? then [o.value] else []
  }

  /** What point i contributes to a pass: its left point, then its right point, where present. */
  function Contribution(ps: seq<Point>, i: int, closed: bool): seq<Point>
    requires |ps| >= 2 && 0 <= i < |ps|
  {
    ToSeq(LeftPoint(ps, i, closed)) + ToSeq(RightPoint(ps, i, closed))
  }

  /** The contributions of points 0 .. m - 1. */
  function PassUpTo(ps: seq<Point>, closed: bool, m: nat): (r: seq<Point>)
    requires |ps| != 1 && m <= |ps|
    ensures |r| == 2 * m - (if !closed && m >= 1 then 1 else 0) - (if !closed && m == |ps| && m >= 1 then 1 else 0)
  {
    if m == 0 then [] else PassUpTo(ps, closed, m - 1) + Contribution(ps, m - 1, closed)
  }

  /** One pass: n points become 2n when closed, 2n - 2 when open. */
  function Pass(ps: seq<Point>, closed: bool): (r: seq<Point>)
    requires |ps| != 1
    ensures |r| == if closed then 2 * |ps| else if |ps| == 0 then 0 else 2 * |ps| - 2
  {
    PassUpTo(ps, closed, |ps|)
  }

  /** The inner loop of drawCurve: one pass over paired_pixels, building new_points and new_colors. */
  method ChaikinPass(ps: seq<Point>, closed: bool, color: Color)
    returns (newPoints: seq<Point>, newColors: seq<Color>)
    requires |ps| != 1
    ensures newPoints == Pass(ps, closed)
    ensures newColors == Uniform(color, |newPoints|)
  {
    newPoints, newColors := [], [];
    for i := 0 to |ps|
      invariant newPoints == PassUpTo(ps, closed, i)
      invariant newColors == Uniform(color, |newPoints|)
    {
      newPoints, newColors := PushNeighbours(ps, i, closed, color, newPoints, newColors);
    }
  }

  /** One iteration of the inner loop: push the left and the right point of vertex i, where present. */
  method PushNeighbours(ps: seq<Point>, i: int, closed: bool, color: Color, points: seq<Point>, colors: seq<Color>)
    returns (points': seq<Point>, colors': seq<Color>)
    requires |ps| >= 2 && 0 <= i < |ps|
    requires colors == Uniform(color, |points|)
    ensures points' == points + Contribution(ps, i, closed)
    ensures colors' == Uniform(color, |points'|)
  {
    var left, right := NeighbourPoints(ps, i, closed);
    points', colors' := points, colors;
    if left.Some? {
      UniformGrows(color, |points'|);
      points', colors' := points' + [left.value], colors' + [color];
    }
    if right.Some? {
      UniformGrows(color, |points'|);
      points', colors' := points' + [right.value], colors' + [color];
    }
  }

  /** curr_left_pt and curr_right_pt of drawCurve, through its three branches. */
  method NeighbourPoints(ps: seq<Point>, i: int, closed: bool) returns (left: Option<Point>, right: Option<Point>)
    requires |ps| >= 2 && 0 <= i < |ps|
    ensures left == LeftPoint(ps, i, closed) && right == RightPoint(ps, i, closed)
  {
    left, right := None, None;
    if i == 0 {
      if closed {
        left := Some(ChaikinPoint(ps[i], ps[|ps| - 1]));
      }
      right := Some(ChaikinPoint(ps[i], ps[i + 1]));
    } else if i == |ps| - 1 {
      left := Some(ChaikinPoint(ps[i], ps[i - 1]));
      if closed {
        right := Some(ChaikinPoint(ps[i], ps[0]));
      }
    } else {
      left := Some(ChaikinPoint(ps[i], ps[i - 1]));
      right := Some(ChaikinPoint(ps[i], ps[i + 1]));
    }
  }

  // ---- a pass as corner cutting ----

  /**
   * Corner cutting of an open chain, edge by edge: for each edge (p_k, p_(k+1))
   * the point a quarter of the way from p_k and the point a quarter of the way
   * from p_(k+1).
   */
  function CutEdges(ps: seq<Point>): (r: seq<Point>)
    requires |ps| >= 2
    ensures |r| == 2 * (|ps| - 1)
  {
    seq(2 * (|ps| - 1), j requires 0 <= j < 2 * (|ps| - 1) =>
      if j % 2 == 0 then ChaikinPoint(ps[j / 2], ps[j / 2 + 1]) else ChaikinPoint(ps[j / 2 + 1], ps[j / 2]))
  }

  /** The first m points of an open pass, by index. */
  lemma {:induction false} OpenPassUpToIndex(ps: seq<Point>, m: nat)
    requires |ps| >= 2 && 1 <= m <= |ps|
    ensures forall k :: 0 <= k < m - 1 ==>
      PassUpTo(ps, false, m)[2 * k] == ChaikinPoint(ps[k], ps[k + 1]) &&
      PassUpTo(ps, false, m)[2 * k + 1] == ChaikinPoint(ps[k + 1], ps[k])
    ensures m < |ps| ==> PassUpTo(ps, false, m)[2 * (m - 1)] == ChaikinPoint(ps[m - 1], ps[m])
  {
    var cur := PassUpTo(ps, false, m);
    if m > 1 {
      OpenPassUpToIndex(ps, m - 1);
      var prev, con := PassUpTo(ps, false, m - 1), Contribution(ps, m - 1, false);
      assert con[0] == ChaikinPoint(ps[m - 1], ps[m - 2]);
      assert cur == prev + con;
      forall k | 0 <= k < m - 1
        ensures cur[2 * k] == ChaikinPoint(ps[k], ps[k + 1]) && cur[2 * k + 1] == ChaikinPoint(ps[k + 1], ps[k])
      {
        assert cur[2 * k] == prev[2 * k];
        if k < m - 2 {
          assert cur[2 * k + 1] == prev[2 * k + 1];
        } else {
          assert cur[2 * k + 1] == con[0];
        }
      }
      if m < |ps| {
        assert con[1] == ChaikinPoint(ps[m - 1], ps[m]);
        assert cur[2 * (m - 1)] == con[1];
      }
    } else {
      assert Contribution(ps, 0, false) == [ChaikinPoint(ps[0], ps[1])];
      assert cur == [] + Contribution(ps, 0, false);
    }
  }

  /** An open pass is corner cutting edge by edge. */
  lemma OpenPassCutsEdges(ps: seq<Point>)
    requires |ps| >= 2
    ensures Pass(ps, false) == CutEdges(ps)
  {
    OpenPassUpToIndex(ps, |ps|);
    var r, c := Pass(ps, false), CutEdges(ps);
    forall j | 0 <= j < |r| ensures r[j] == c[j] {
      var k := j / 2;
      if j % 2 == 0 {
        assert j == 2 * k;
      } else {
        assert j == 2 * k + 1;
      }
    }
  }

  /** The first m points of a closed pass, by index: left then right point of each control point. */
  lemma {:induction false} ClosedPassUpToIndex(ps: seq<Point>, m: nat)
    requires |ps| >= 2 && m <= |ps|
    ensures forall i :: 0 <= i < m ==>
      Some(PassUpTo(ps, true, m)[2 * i]) == LeftPoint(ps, i, true) &&
      Some(PassUpTo(ps, true, m)[2 * i + 1]) == RightPoint(ps, i, true)
  {
    if m > 0 {
      ClosedPassUpToIndex(ps, m - 1);
      var prev := PassUpTo(ps, true, m - 1);
      var left, right := LeftPoint(ps, m - 1, true).value, RightPoint(ps, m - 1, true).value;
      assert Contribution(ps, m - 1, true) == [left, right];
      assert PassUpTo(ps, true, m) == prev + [left, right];
      AppendPair(prev, left, right);
    }
  }

  lemma AppendPair(prev: seq<Point>, a: Point, b: Point)
    requires |prev| % 2 == 0
    ensures forall i :: 0 <= i < |prev| / 2 ==> (prev + [a, b])[2 * i] == prev[2 * i] && (prev + [a, b])[2 * i + 1] == prev[2 * i + 1]
    ensures (prev + [a, b])[|prev|] == a && (prev + [a, b])[|prev| + 1] == b
  {
  }

  /**
   * A closed pass emits, for every point, the quarter points towards its
   * cyclic predecessor and successor.
   */
  lemma ClosedPassIndex(ps: seq<Point>, i: int)
    requires |ps| >= 2 && 0 <= i < |ps|
    ensures Pass(ps, true)[2 * i] == ChaikinPoint(ps[i], ps[(i - 1 + |ps|) % |ps|])
    ensures Pass(ps, true)[2 * i + 1] == ChaikinPoint(ps[i], ps[(i + 1) % |ps|])
  {
    ClosedPassUpToIndex(ps, |ps|);
    assert Some(Pass(ps, true)[2 * i]) == LeftPoint(ps, i, true);
    assert Some(Pass(ps, true)[2 * i + 1]) == RightPoint(ps, i, true);
    CyclicNeighbours(|ps|, i);
  }

  // ---- iterated passes ----

  /** The working points after k passes. */
  function Iterate(ps: seq<Point>, closed: bool, k: nat): (r: seq<Point>)
    requires |ps| != 1
    ensures |r| != 1
  {
    if k == 0 then ps else Pass(Iterate(ps, closed, k - 1), closed)
  }

  /**
   * The points drawCurve hands to the renderer: new_points after the last
   * pass for "chaikin", nothing for any other type.
   */
  function CurveSpec(kind: string, coords: seq<int>, closed: bool): (points: seq<Point>)
    requires kind == "chaikin" ==> |Pairs(coords)| != 1
    ensures var n := |Pairs(coords)|;
      |points| ==
        if kind != "chaikin" || n == 0 then 0
        else if closed then 32768 * n
        else 32768 * (n - 2) + 2
  {
    var ps := Pairs(coords);
    PowerOfPasses();
    assert kind == "chaikin" ==> |Iterate(ps, closed, Passes)| == if |ps| == 0 then 0
        else if closed then 32768 * |ps| else 32768 * (|ps| - 2) + 2 by {
      if kind == "chaikin" {
        if closed {
          ClosedLength(ps, Passes);
        } else if |ps| >= 2 {
          OpenLength(ps, Passes);
        } else {
          EmptyStaysEmpty(false, Passes);
        }
      }
    }
    if kind == "chaikin" then Iterate(ps, closed, Passes) else []
  }

  /** drawCurve, returning what it hands to drawPointsGPU. */
  method DrawCurve(kind: string, coords: seq<int>, closed: bool, color: Color)
    returns (points: seq<Point>, colors: seq<Color>)
    requires kind == "chaikin" ==> |Pairs(coords)| != 1
    ensures points == CurveSpec(kind, coords, closed)
    ensures colors == Uniform(color, |points|)
  {
    var paired := PairUp(coords);
    points, colors := [], [];
    if kind == "chaikin" {
      points, colors := ChaikinPasses(paired, closed, color);
    }
  }

  /**
   * The `while (step > 0)` countdown of drawCurve, from step = 15: each pass
   * replaces paired_pixels by new_points, and the last new_points is kept.
   */
  method ChaikinPasses(ps: seq<Point>, closed: bool, color: Color)
    returns (points: seq<Point>, colors: seq<Color>)
    requires |ps| != 1
    ensures points == Iterate(ps, closed, Passes)
    ensures colors == Uniform(color, |points|)
  {
    var paired := ps;
    points, colors := [], [];
    var step := Passes;
    while step > 0
      invariant 0 <= step <= Passes
      invariant |paired| != 1
      invariant paired == Iterate(ps, closed, Passes - step)
      invariant step < Passes ==> points == paired
      invariant colors == Uniform(color, |points|)
    {
      points, colors := ChaikinPass(paired, closed, color);
      paired := points;
      step := step - 1;
    }
  }

  function Pow2(k: nat): (p: nat)
    ensures p >= 1
  {
    if k == 0 then 1 else 2 * Pow2(k - 1)
  }

  lemma Doubling(a: int, p: int)
    ensures a * (2 * p) == 2 * (a * p)
  {
  }

  /** A closed curve doubles its points on every pass. */
  lemma {:induction false} ClosedLength(ps: seq<Point>, k: nat)
    requires |ps| != 1
    ensures |Iterate(ps, true, k)| == |ps| * Pow2(k)
  {
    if k > 0 {
      ClosedLength(ps, k - 1);
      Doubling(|ps|, Pow2(k - 1));
    }
  }

  /** An open chain of n >= 2 points has (n - 2) 2^k + 2 points after k passes. */
  lemma {:induction false} OpenLength(ps: seq<Point>, k: nat)
    requires |ps| >= 2
    ensures |Iterate(ps, false, k)| == (|ps| - 2) * Pow2(k) + 2
  {
    if k > 0 {
      OpenLength(ps, k - 1);
      Doubling(|ps| - 2, Pow2(k - 1));
    }
  }

  /** With three or more control points every further pass of an open chain adds points. */
  lemma OpenGrows(ps: seq<Point>, k: nat)
    requires |ps| >= 3
    ensures |Iterate(ps, false, k + 1)| > |Iterate(ps, false, k)|
  {
    OpenLength(ps, k);
    OpenLength(ps, k + 1);
    assert (|ps| - 2) * Pow2(k + 1) == (|ps| - 2) * Pow2(k) + (|ps| - 2) * Pow2(k);
    assert (|ps| - 2) * Pow2(k) >= 1;
  }

  lemma PowerOfPasses()
    ensures Pow2(Passes) == 32768
  {
    assert Pow2(5) == 32;
    assert Pow2(10) == 1024;
  }

  lemma {:induction false} EmptyStaysEmpty(closed: bool, k: nat)
    ensures Iterate([], closed, k) == []
  {
    if k > 0 {
      EmptyStaysEmpty(closed, k - 1);
    }
  }

  // ---- the curve stays in the control points' box ----

  /** Every point lies in the box [lo.x, hi.x] x [lo.y, hi.y]. */
  predicate Within(qs: seq<Point>, lo: Point, hi: Point) {
    forall k :: 0 <= k < |qs| ==> lo.x <= qs[k].x <= hi.x && lo.y <= qs[k].y <= hi.y
  }

  lemma WithinConcat(s: seq<Point>, u: seq<Point>, lo: Point, hi: Point)
    requires Within(s, lo, hi) && Within(u, lo, hi)
    ensures Within(s + u, lo, hi)
  {
    forall k | 0 <= k < |s + u|
      ensures lo.x <= (s + u)[k].x <= hi.x && lo.y <= (s + u)[k].y <= hi.y
    {
      if k >= |s| {
        assert (s + u)[k] == u[k - |s|];
      }
    }
  }

  lemma ChaikinPointWithin(qs: seq<Point>, a: int, b: int, lo: Point, hi: Point)
    requires Within(qs, lo, hi) && 0 <= a < |qs| && 0 <= b < |qs|
    ensures Within([ChaikinPoint(qs[a], qs[b])], lo, hi)
  {
  }

  lemma ContributionWithin(ps: seq<Point>, i: int, closed: bool, lo: Point, hi: Point)
    requires |ps| >= 2 && 0 <= i < |ps| && Within(ps, lo, hi)
    ensures Within(Contribution(ps, i, closed), lo, hi)
  {
    var n := |ps|;
    var left, right := LeftPoint(ps, i, closed), RightPoint(ps, i, closed);
    if i == 0 {
      ChaikinPointWithin(ps, 0, n - 1, lo, hi);
    } else {
      ChaikinPointWithin(ps, i, i - 1, lo, hi);
    }
    if i == n - 1 {
      ChaikinPointWithin(ps, i, 0, lo, hi);
    } else {
      ChaikinPointWithin(ps, i, i + 1, lo, hi);
    }
    assert Within(ToSeq(left), lo, hi);
    assert Within(ToSeq(right), lo, hi);
    WithinConcat(ToSeq(left), ToSeq(right), lo, hi);
  }

  lemma {:induction false} PassUpToWithin(ps: seq<Point>, closed: bool, m: nat, lo: Point, hi: Point)
    requires |ps| != 1 && m <= |ps| && Within(ps, lo, hi)
    ensures Within(PassUpTo(ps, closed, m), lo, hi)
  {
    if m > 0 {
      var prev, con := PassUpTo(ps, closed, m - 1), Contribution(ps, m - 1, closed);
      PassUpToWithin(ps, closed, m - 1, lo, hi);
      ContributionWithin(ps, m - 1, closed, lo, hi);
      WithinConcat(prev, con, lo, hi);
      assert PassUpTo(ps, closed, m) == prev + con;
    }
  }

  /** However many passes are made, the curve stays inside any box holding all control points. */
  lemma {:induction false} IterateWithin(ps: seq<Point>, closed: bool, k: nat, lo: Point, hi: Point)
    requires |ps| != 1 && Within(ps, lo, hi)
    ensures Within(Iterate(ps, closed, k), lo, hi)
  {
    if k > 0 {
      IterateWithin(ps, closed, k - 1, lo, hi);
      PassUpToWithin(Iterate(ps, closed, k - 1), closed, |Iterate(ps, closed, k - 1)|, lo, hi);
    }
  }

  /** The drawn curve lies inside the bounding box of its control points. */
  lemma CurveWithin(kind: string, coords: seq<int>, closed: bool, lo: Point, hi: Point)
    requires kind == "chaikin" ==> |Pairs(coords)| != 1
    requires Within(Pairs(coords), lo, hi)
    ensures Within(CurveSpec(kind, coords, closed), lo, hi)
  {
    if kind == "chaikin" {
      IterateWithin(Pairs(coords), closed, Passes, lo, hi);
    }
  }

  /** A curve type other than "chaikin" draws nothing. */
  lemma OtherTypesDrawNothing(kind: string, coords: seq<int>, closed: bool)
    requires kind != "chaikin"
    ensures CurveSpec(kind, coords, closed) == []
  {
  }
}
