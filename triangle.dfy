/**
 * in_triangle, calc_barycentric, get_min, get_max and fill_triangle of
 * a2.js: a brute-force fill that tests every integer point of the
 * triangle's bounding box with barycentric coordinates and keeps those whose
 * three weights are all non-negative (tolerance exactly zero).
 *
 * Vertices are integer points; the weights are exact reals where the source
 * divides doubles.
 */
module Triangle {
  import opened Geometry

  /** Number.MAX_VALUE, (2^53 - 1) * 2^971, the start value of get_min. */
  const MaxValue: real := 179769313486231570814527423731704356798070567525844996598917476803157260780028538760589558632766878171540458953514382464234321326889464182768467546703537516986049910576551282076245490090389328944075868508455133942304583236903222948165808559332123348274797826204144723168738177180919299881250404026184124858368.0

  /**
   * Number.MIN_VALUE, 2^-1074, the start value of get_max: the smallest
   * positive double, not the most negative one.
   */
  const MinValue: real := 1.0 / 202402253307310618352495346718917307049556649764142118356901358027430339567995346891960383701437124495187077864316811911389808737385793476867013399940738509921517424276566361364466907742093216341239767678472745068562007483424692698618103355649159556340810056512358769552333414615230502532186327508646006263307707741093494784.0

  /** A triangle's three vertices. */
  datatype Tri = Tri(a: Point, b: Point, c: Point)

  /** A triangle with non-zero area: the only kind calc_barycentric does not divide by zero for. */
  predicate NonDegenerate(t: Tri) {
    Area2(t.a, t.b, t.c) != 0
  }

  /** The barycentric weights [alpha, beta, gamma]. */
  datatype Weights = Weights(alpha: real, beta: real, gamma: real)

  /** calc_barycentric: beta and gamma from the edge normals of ac and ab, alpha = 1 - beta - gamma. */
  function Barycentric(p: Point, t: Tri): (w: Weights)
    requires NonDegenerate(t)
    ensures w.alpha + w.beta + w.gamma == 1.0
  {
    var ab, ac, ap := Sub(t.b, t.a), Sub(t.c, t.a), Sub(p, t.a);
    var nac := Point(t.a.y - t.c.y, t.c.x - t.a.x);
    var nab := Point(t.a.y - t.b.y, t.b.x - t.a.x);
    DenominatorsAreArea(t);
    var beta := Dot(ap, nac) as real / Dot(ab, nac) as real;
    var gamma := Dot(ap, nab) as real / Dot(ac, nab) as real;
    Weights(1.0 - beta - gamma, beta, gamma)
  }

  /**
   * in_triangle: all three weights at least zero. When the triangle has zero
   * area both denominators of calc_barycentric are zero, and in IEEE
   * arithmetic no point passes: 0 / 0 is NaN, which fails every comparison,
   * a non-zero numerator gives an infinity, and when beta and gamma are both
   * +Infinity, alpha = 1 - beta - gamma is -Infinity.
   */
  predicate InTriangle(p: Point, t: Tri): (inside: bool)
    ensures inside <==> InsideEdges(p, t)
  {
    NonDegenerate(t) &&
    var w := Barycentric(p, t);
    WeightSigns(p, t);
    w.alpha >= 0.0 && w.beta >= 0.0 && w.gamma >= 0.0
  }

  // ---- the weights as signed areas ----

  /** The two denominators of calc_barycentric are minus and plus twice the signed area. */
  lemma DenominatorsAreArea(t: Tri)
    ensures Dot(Sub(t.b, t.a), Point(t.a.y - t.c.y, t.c.x - t.a.x)) == -Area2(t.a, t.b, t.c)
    ensures Dot(Sub(t.c, t.a), Point(t.a.y - t.b.y, t.b.x - t.a.x)) == Area2(t.a, t.b, t.c)
  {
  }

  /** The numerators of calc_barycentric are signed areas of sub-triangles. */
  lemma NumeratorsAreAreas(p: Point, t: Tri)
    ensures Dot(Sub(p, t.a), Point(t.a.y - t.c.y, t.c.x - t.a.x)) == -Area2(t.c, t.a, p)
    ensures Dot(Sub(p, t.a), Point(t.a.y - t.b.y, t.b.x - t.a.x)) == Area2(t.a, t.b, p)
  {
  }

  /** The three sub-triangles on p add up to the whole. */
  lemma AreasAddUp(p: Point, t: Tri)
    ensures Area2(t.b, t.c, p) + Area2(t.c, t.a, p) + Area2(t.a, t.b, p) == Area2(t.a, t.b, t.c)
  {
  }

  lemma QuotientOfNegations(n: int, d: int)
    requires d != 0
    ensures (-n) as real / (-d) as real == n as real / d as real
  {
  }

  lemma DiffOfQuotients(a: real, b: real, D: real)
    requires D != 0.0
    ensures a / D - b / D == (a - b) / D
  {
  }

  lemma SumOfQuotients(m: int, n: int, d: int)
    requires d != 0
    ensures 1.0 - m as real / d as real - n as real / d as real == (d - m - n) as real / d as real
  {
    var Dr := d as real;
    assert 1.0 == Dr / Dr;
    DiffOfQuotients(Dr, m as real, Dr);
    DiffOfQuotients(Dr - m as real, n as real, Dr);
  }

  /**
   * Each weight is the signed area of the sub-triangle opposite its vertex,
   * divided by the signed area of the whole triangle.
   */
  lemma WeightsAreAreaRatios(p: Point, t: Tri)
    requires NonDegenerate(t)
    ensures var w, D := Barycentric(p, t), Area2(t.a, t.b, t.c) as real;
      && w.alpha == Area2(t.b, t.c, p) as real / D
      && w.beta == Area2(t.c, t.a, p) as real / D
      && w.gamma == Area2(t.a, t.b, p) as real / D
  {
    DenominatorsAreArea(t);
    NumeratorsAreAreas(p, t);
    AreasAddUp(p, t);
    var D := Area2(t.a, t.b, t.c);
    QuotientOfNegations(Area2(t.c, t.a, p), D);
    SumOfQuotients(Area2(t.c, t.a, p), Area2(t.a, t.b, p), D);
  }

  /** The weights reproduce p as the affine combination alpha a + beta b + gamma c. */
  lemma WeightsReconstructPoint(p: Point, t: Tri)
    requires NonDegenerate(t)
    ensures var w := Barycentric(p, t);
      && w.alpha * t.a.x as real + w.beta * t.b.x as real + w.gamma * t.c.x as real == p.x as real
      && w.alpha * t.a.y as real + w.beta * t.b.y as real + w.gamma * t.c.y as real == p.y as real
  {
    WeightsAreAreaRatios(p, t);
    var D := Area2(t.a, t.b, t.c);
    var wa, wb, wc := Area2(t.b, t.c, p), Area2(t.c, t.a, p), Area2(t.a, t.b, p);
    CramerX(t.a, t.b, t.c, p);
    CramerY(t.a, t.b, t.c, p);
    ScaledSum(wa, wb, wc, D, t.a.x, t.b.x, t.c.x, p.x);
    ScaledSum(wa, wb, wc, D, t.a.y, t.b.y, t.c.y, p.y);
  }

  /** Cramer's rule for the x coordinate, multiplied through by the area. */
  lemma CramerX(a: Point, b: Point, c: Point, p: Point)
    ensures Area2(b, c, p) * a.x + Area2(c, a, p) * b.x + Area2(a, b, p) * c.x == Area2(a, b, c) * p.x
  {
  }

  lemma CramerY(a: Point, b: Point, c: Point, p: Point)
    ensures Area2(b, c, p) * a.y + Area2(c, a, p) * b.y + Area2(a, b, p) * c.y == Area2(a, b, c) * p.y
  {
  }

  lemma ScaledSum(wa: int, wb: int, wc: int, D: int, u: int, v: int, z: int, q: int)
    requires D != 0
    requires wa * u + wb * v + wc * z == D * q
    ensures (wa as real / D as real) * u as real + (wb as real / D as real) * v as real
      + (wc as real / D as real) * z as real == q as real
  {
    var Dr := D as real;
    calc {
      (wa as real / Dr) * u as real + (wb as real / Dr) * v as real + (wc as real / Dr) * z as real;
      (wa as real * u as real + wb as real * v as real + wc as real * z as real) / Dr;
      (wa * u + wb * v + wc * z) as real / Dr;
      (D * q) as real / Dr;
      q as real;
    }
  }

  /** The vertices have weights (1, 0, 0), (0, 1, 0) and (0, 0, 1). */
  lemma VertexWeights(t: Tri)
    requires NonDegenerate(t)
    ensures Barycentric(t.a, t) == Weights(1.0, 0.0, 0.0)
    ensures Barycentric(t.b, t) == Weights(0.0, 1.0, 0.0)
    ensures Barycentric(t.c, t) == Weights(0.0, 0.0, 1.0)
  {
    WeightsAreAreaRatios(t.a, t);
    WeightsAreAreaRatios(t.b, t);
    WeightsAreAreaRatios(t.c, t);
    assert Area2(t.b, t.c, t.a) == Area2(t.a, t.b, t.c);
    assert Area2(t.c, t.a, t.b) == Area2(t.a, t.b, t.c);
  }

  /** Every vertex tests inside its own triangle. */
  lemma VerticesInside(t: Tri)
    requires NonDegenerate(t)
    ensures InTriangle(t.a, t) && InTriangle(t.b, t) && InTriangle(t.c, t)
  {
    VertexWeights(t);
  }

  lemma QuotientSign(n: int, d: int)
    requires d != 0
    ensures n as real / d as real >= 0.0 <==> (d > 0 && n >= 0) || (d < 0 && n <= 0)
  {
    var q := n as real / d as real;
    assert q * d as real == n as real;
    if d > 0 {
      assert q >= 0.0 ==> n as real >= 0.0;
      assert q < 0.0 ==> n as real < 0.0;
    } else {
      assert q >= 0.0 ==> n as real <= 0.0;
      assert q < 0.0 ==> n as real > 0.0;
    }
  }

  /**
   * The edge-function test: p is on the inner side of, or on, all three
   * edges, for either winding of the triangle.
   */
  predicate InsideEdges(p: Point, t: Tri) {
    var D := Area2(t.a, t.b, t.c);
    var wa, wb, wc := Area2(t.b, t.c, p), Area2(t.c, t.a, p), Area2(t.a, t.b, p);
    (D > 0 && wa >= 0 && wb >= 0 && wc >= 0) || (D < 0 && wa <= 0 && wb <= 0 && wc <= 0)
  }

  /** All three weights are non-negative exactly when the integer edge-function test accepts p. */
  lemma WeightSigns(p: Point, t: Tri)
    requires NonDegenerate(t)
    ensures var w := Barycentric(p, t);
      w.alpha >= 0.0 && w.beta >= 0.0 && w.gamma >= 0.0 <==> InsideEdges(p, t)
  {
    WeightsAreAreaRatios(p, t);
    var D := Area2(t.a, t.b, t.c);
    QuotientSign(Area2(t.b, t.c, p), D);
    QuotientSign(Area2(t.c, t.a, p), D);
    QuotientSign(Area2(t.a, t.b, p), D);
  }

  // ---- bounding box ----

  /** The smaller of the get_min start value and the vertices' coordinates. */
  function MinOf(start: real, vs: seq<int>): (m: real)
    ensures m <= start && forall k :: 0 <= k < |vs| ==> m <= vs[k] as real
    ensures m == start || exists k :: 0 <= k < |vs| && m == vs[k] as real
  {
    if vs == [] then start
    else var m := MinOf(start, vs[..|vs| - 1]);
      if vs[|vs| - 1] as real < m then vs[|vs| - 1] as real else m
  }

  function MaxOf(start: real, vs: seq<int>): (m: real)
    ensures m >= start && forall k :: 0 <= k < |vs| ==> m >= vs[k] as real
    ensures m == start || exists k :: 0 <= k < |vs| && m == vs[k] as real
  {
    if vs == [] then start
    else var m := MaxOf(start, vs[..|vs| - 1]);
      if vs[|vs| - 1] as real > m then vs[|vs| - 1] as real else m
  }

  function Xs(vs: seq<Point>): (xs: seq<int>)
    ensures |xs| == |vs| && forall k :: 0 <= k < |vs| ==> xs[k] == vs[k].x
  {
    seq(|vs|, k requires 0 <= k < |vs| => vs[k].x)
  }

  function Ys(vs: seq<Point>): (ys: seq<int>)
    ensures |ys| == |vs| && forall k :: 0 <= k < |vs| ==> ys[k] == vs[k].y
  {
    seq(|vs|, k requires 0 <= k < |vs| => vs[k].y)
  }

  /** get_min: a scan from Number.MAX_VALUE keeping the smaller coordinate. */
  method GetMin(vs: seq<Point>) returns (x: real, y: real)
    ensures x == MinOf(MaxValue, Xs(vs)) && y == MinOf(MaxValue, Ys(vs))
  {
    x, y := MaxValue, MaxValue;
    for i := 0 to |vs|
      invariant x == MinOf(MaxValue, Xs(vs)[..i]) && y == MinOf(MaxValue, Ys(vs)[..i])
    {
      assert Xs(vs)[..i + 1][..i] == Xs(vs)[..i];
      assert Ys(vs)[..i + 1][..i] == Ys(vs)[..i];
      if (vs[i].x as real) < x {
        x := vs[i].x as real;
      }
      if (vs[i].y as real) < y {
        y := vs[i].y as real;
      }
    }
    assert Xs(vs)[..|vs|] == Xs(vs);
    assert Ys(vs)[..|vs|] == Ys(vs);
  }

  /** get_max: a scan from Number.MIN_VALUE keeping the larger coordinate. */
  method GetMax(vs: seq<Point>) returns (x: real, y: real)
    ensures x == MaxOf(MinValue, Xs(vs)) && y == MaxOf(MinValue, Ys(vs))
  {
    x, y := MinValue, MinValue;
    for i := 0 to |vs|
      invariant x == MaxOf(MinValue, Xs(vs)[..i]) && y == MaxOf(MinValue, Ys(vs)[..i])
    {
      assert Xs(vs)[..i + 1][..i] == Xs(vs)[..i];
      assert Ys(vs)[..i + 1][..i] == Ys(vs)[..i];
      if (vs[i].x as real) > x {
        x := vs[i].x as real;
      }
      if (vs[i].y as real) > y {
        y := vs[i].y as real;
      }
    }
    assert Xs(vs)[..|vs|] == Xs(vs);
    assert Ys(vs)[..|vs|] == Ys(vs);
  }

  /** The scanned box [iMin, iMax] x [jMin, jMax] of fill_triangle. */
  datatype Box = Box(iMin: int, iMax: int, jMin: int, jMax: int)

  function Vertices(t: Tri): seq<Point> {
    [t.a, t.b, t.c]
  }

  /** The box fill_triangle scans; it contains every vertex, and can be wider than the vertex box. */
  function ScanBox(t: Tri): (b: Box)
    ensures InBox(t.a, b) && InBox(t.b, b) && InBox(t.c, b)
  {
    var vs := Vertices(t);
    assert Xs(vs)[0] == t.a.x && Xs(vs)[1] == t.b.x && Xs(vs)[2] == t.c.x;
    assert Ys(vs)[0] == t.a.y && Ys(vs)[1] == t.b.y && Ys(vs)[2] == t.c.y;
    Box(MinOf(MaxValue, Xs(vs)).Floor, Ceil(MaxOf(MinValue, Xs(vs))),
        MinOf(MaxValue, Ys(vs)).Floor, Ceil(MaxOf(MinValue, Ys(vs))))
  }

  predicate InBox(p: Point, b: Box) {
    b.iMin <= p.x <= b.iMax && b.jMin <= p.y <= b.jMax
  }

  function Min3(u: int, v: int, w: int): int {
    if u <= v && u <= w then u else if v <= w then v else w
  }

  function Max3(u: int, v: int, w: int): int {
    if u >= v && u >= w then u else if v >= w then v else w
  }

  lemma MinValueBetweenZeroAndOne()
    ensures 0.0 < MinValue < 1.0
  {
  }

  lemma MinOfThree(start: real, u: int, v: int, w: int)
    ensures MinOf(start, [u, v, w]) == if Min3(u, v, w) as real <= start then Min3(u, v, w) as real else start
  {
    assert [u, v, w][..2] == [u, v];
    assert [u, v][..1] == [u];
    assert [u][..0] == [];
    var m1 := MinOf(start, [u]);
    assert m1 == if (u as real) < start then u as real else start;
    var m2 := MinOf(start, [u, v]);
    assert m2 == if (v as real) < m1 then v as real else m1;
    assert MinOf(start, [u, v, w]) == if (w as real) < m2 then w as real else m2;
  }

  lemma MaxOfThree(start: real, u: int, v: int, w: int)
    ensures MaxOf(start, [u, v, w]) == if Max3(u, v, w) as real >= start then Max3(u, v, w) as real else start
  {
    assert [u, v, w][..2] == [u, v];
    assert [u, v][..1] == [u];
    assert [u][..0] == [];
    var m1 := MaxOf(start, [u]);
    assert m1 == if (u as real) > start then u as real else start;
    var m2 := MaxOf(start, [u, v]);
    assert m2 == if (v as real) > m1 then v as real else m1;
    assert MaxOf(start, [u, v, w]) == if (w as real) > m2 then w as real else m2;
  }

  /** Rounding the get_max result up on integer coordinates: the maximum, or 1 when it is at most 0. */
  lemma CeilOfMax(m: int)
    ensures Ceil(if m as real >= MinValue then m as real else MinValue) == if m >= 1 then m else 1
  {
    MinValueBetweenZeroAndOne();
  }

  /**
   * The box on integer vertices: the least coordinate below (as long as it is
   * a double, at most Number.MAX_VALUE), and on the other side the greatest
   * coordinate, or 1 when every coordinate is at most 0, because get_max
   * starts from a positive value.
   */
  lemma ScanBoxOfIntegers(t: Tri)
    ensures var b := ScanBox(t);
      && (Min3(t.a.x, t.b.x, t.c.x) as real <= MaxValue ==> b.iMin == Min3(t.a.x, t.b.x, t.c.x))
      && (Min3(t.a.y, t.b.y, t.c.y) as real <= MaxValue ==> b.jMin == Min3(t.a.y, t.b.y, t.c.y))
      && b.iMax == (if Max3(t.a.x, t.b.x, t.c.x) >= 1 then Max3(t.a.x, t.b.x, t.c.x) else 1)
      && b.jMax == (if Max3(t.a.y, t.b.y, t.c.y) >= 1 then Max3(t.a.y, t.b.y, t.c.y) else 1)
  {
    var vs := Vertices(t);
    assert Xs(vs) == [t.a.x, t.b.x, t.c.x];
    assert Ys(vs) == [t.a.y, t.b.y, t.c.y];
    MinOfThree(MaxValue, t.a.x, t.b.x, t.c.x);
    MinOfThree(MaxValue, t.a.y, t.b.y, t.c.y);
    MaxOfThree(MinValue, t.a.x, t.b.x, t.c.x);
    MaxOfThree(MinValue, t.a.y, t.b.y, t.c.y);
    CeilOfMax(Max3(t.a.x, t.b.x, t.c.x));
    CeilOfMax(Max3(t.a.y, t.b.y, t.c.y));
  }

  // ---- the scan ----

  /** Column i of the scan: rows lo .. hi - 1 that pass in_triangle, bottom to top. */
  function Column(t: Tri, i: int, lo: int, hi: int): seq<Point>
    decreases hi - lo
  {
    if hi <= lo then []
    else Column(t, i, lo, hi - 1) + (if InTriangle(Point(i, hi - 1), t) then [Point(i, hi - 1)] else [])
  }

  /** Columns lo .. hi - 1 of the scan over rows jLo .. jHi - 1, left to right. */
  function Scan(t: Tri, lo: int, hi: int, jLo: int, jHi: int): seq<Point>
    decreases hi - lo
  {
    if hi <= lo then []
    else Scan(t, lo, hi - 1, jLo, jHi) + Column(t, hi - 1, jLo, jHi)
  }

  /** The scan of fill_triangle over the box b. */
  function FillBox(t: Tri, b: Box): seq<Point>
  {
    Scan(t, b.iMin, b.iMax + 1, b.jMin, b.jMax + 1)
  }

  /** The pixels fill_triangle emits: the points of its box that pass in_triangle. */
  function FillSpec(t: Tri): (pts: seq<Point>)
    ensures forall p :: p in pts <==> InBox(p, ScanBox(t)) && InTriangle(p, t)
  {
    FillBoxAllMembers(t, ScanBox(t));
    FillBox(t, ScanBox(t))
  }

  /** fill_triangle, returning its [pts, colors]. */
  method FillTriangle(t: Tri, color: Color) returns (pts: seq<Point>, colors: seq<Color>)
    ensures pts == FillSpec(t)
    ensures colors == Uniform(color, |pts|)
  {
    var b := BoundingBox(t);
    pts, colors := ScanPixels(t, b, color);
  }

  /** The box of fill_triangle: get_min rounded down and get_max rounded up. */
  method BoundingBox(t: Tri) returns (b: Box)
    ensures b == ScanBox(t)
  {
    var xMin, yMin := GetMin([t.a, t.b, t.c]);
    var xMax, yMax := GetMax([t.a, t.b, t.c]);
    assert [t.a, t.b, t.c] == Vertices(t);
    b := Box(xMin.Floor, Ceil(xMax), yMin.Floor, Ceil(yMax));
  }

  /** The two nested loops of fill_triangle over the box [iMin, iMax] x [jMin, jMax]. */
  method ScanPixels(t: Tri, b: Box, color: Color)
    returns (pts: seq<Point>, colors: seq<Color>)
    ensures pts == FillBox(t, b)
    ensures colors == Uniform(color, |pts|)
  {
    var iMin, iMax, jMin, jMax := b.iMin, b.iMax, b.jMin, b.jMax;
    pts, colors := [], [];
    var i := iMin;
    while i <= iMax
      invariant iMin <= i && (i <= iMax + 1 || i == iMin)
      invariant pts == Scan(t, iMin, i, jMin, jMax + 1)
      invariant colors == Uniform(color, |pts|)
      decreases iMax - i
    {
      ghost var before := pts;
      var j := jMin;
      while j <= jMax
        invariant jMin <= j && (j <= jMax + 1 || j == jMin)
        invariant pts == before + Column(t, i, jMin, j)
        invariant colors == Uniform(color, |pts|)
        decreases jMax - j
      {
        if InTriangle(Point(i, j), t) {
          pts := pts + [Point(i, j)];
          colors := colors + [color];
        }
        j := j + 1;
      }
      if jMax < jMin {
        assert Column(t, i, jMin, j) == [] == Column(t, i, jMin, jMax + 1);
      } else {
        assert j == jMax + 1;
      }
      i := i + 1;
    }
    if iMax < iMin {
      assert Scan(t, iMin, i, jMin, jMax + 1) == [] == Scan(t, iMin, iMax + 1, jMin, jMax + 1);
    } else {
      assert i == iMax + 1;
    }
  }

  // ---- what the scan emits ----

  lemma {:induction false} ColumnMembers(t: Tri, i: int, lo: int, hi: int, p: Point)
    ensures p in Column(t, i, lo, hi) <==> p.x == i && lo <= p.y < hi && InTriangle(p, t)
    decreases hi - lo
  {
    if hi > lo {
      ColumnMembers(t, i, lo, hi - 1, p);
    }
  }

  lemma {:induction false} ScanMembers(t: Tri, lo: int, hi: int, jLo: int, jHi: int, p: Point)
    ensures p in Scan(t, lo, hi, jLo, jHi) <==> lo <= p.x < hi && jLo <= p.y < jHi && InTriangle(p, t)
    decreases hi - lo
  {
    if hi > lo {
      ScanMembers(t, lo, hi - 1, jLo, jHi, p);
      ColumnMembers(t, hi - 1, jLo, jHi, p);
    }
  }

  lemma FillBoxAllMembers(t: Tri, b: Box)
    ensures forall p :: p in FillBox(t, b) <==> InBox(p, b) && InTriangle(p, t)
  {
    forall p {
      FillBoxMembers(t, b, p);
    }
  }

  lemma FillBoxMembers(t: Tri, b: Box, p: Point)
    ensures p in FillBox(t, b) <==> InBox(p, b) && InTriangle(p, t)
  {
    ScanMembers(t, b.iMin, b.iMax + 1, b.jMin, b.jMax + 1, p);
  }

  /** Every vertex of the triangle is one of the filled pixels. */
  lemma FillContainsVertices(t: Tri)
    requires NonDegenerate(t)
    ensures t.a in FillSpec(t) && t.b in FillSpec(t) && t.c in FillSpec(t)
  {
    VerticesInside(t);
  }

  /** A weighted average with non-negative weights lies between the least and the greatest value. */
  lemma AverageBounds(wa: real, wb: real, wc: real, u: int, v: int, z: int, q: int)
    requires wa >= 0.0 && wb >= 0.0 && wc >= 0.0 && wa + wb + wc == 1.0
    requires wa * u as real + wb * v as real + wc * z as real == q as real
    ensures Min3(u, v, z) <= q <= Max3(u, v, z)
  {
    var m, M := Min3(u, v, z) as real, Max3(u, v, z) as real;
    assert q as real - m == wa * (u as real - m) + wb * (v as real - m) + wc * (z as real - m);
    assert M - q as real == wa * (M - u as real) + wb * (M - v as real) + wc * (M - z as real);
    NonNegativeProduct(wa, u as real - m);
    NonNegativeProduct(wb, v as real - m);
    NonNegativeProduct(wc, z as real - m);
    NonNegativeProduct(wa, M - u as real);
    NonNegativeProduct(wb, M - v as real);
    NonNegativeProduct(wc, M - z as real);
  }

  lemma NonNegativeProduct(x: real, y: real)
    requires x >= 0.0 && y >= 0.0
    ensures x * y >= 0.0
  {
  }

  /** A point that passes in_triangle lies between the least and the greatest vertex coordinate on each axis. */
  lemma InTriangleWithinVertexBox(p: Point, t: Tri)
    requires InTriangle(p, t)
    ensures Min3(t.a.x, t.b.x, t.c.x) <= p.x <= Max3(t.a.x, t.b.x, t.c.x)
    ensures Min3(t.a.y, t.b.y, t.c.y) <= p.y <= Max3(t.a.y, t.b.y, t.c.y)
  {
    var w := Barycentric(p, t);
    WeightsReconstructPoint(p, t);
    AverageBounds(w.alpha, w.beta, w.gamma, t.a.x, t.b.x, t.c.x, p.x);
    AverageBounds(w.alpha, w.beta, w.gamma, t.a.y, t.b.y, t.c.y, p.y);
  }

  /**
   * For vertices a double can hold, the scan box never cuts the triangle:
   * fill_triangle emits exactly the integer points that pass in_triangle.
   */
  lemma FillIsExactlyInTriangle(t: Tri, p: Point)
    requires Min3(t.a.x, t.b.x, t.c.x) as real <= MaxValue && Min3(t.a.y, t.b.y, t.c.y) as real <= MaxValue
    ensures p in FillSpec(t) <==> InTriangle(p, t)
  {
    ScanBoxOfIntegers(t);
    if InTriangle(p, t) {
      InTriangleWithinVertexBox(p, t);
    }
  }

  /** A triangle of zero area fills nothing. */
  lemma DegenerateFillsNothing(t: Tri)
    requires !NonDegenerate(t)
    ensures FillSpec(t) == []
  {
    DegenerateBoxEmpty(t, ScanBox(t));
  }

  lemma DegenerateBoxEmpty(t: Tri, b: Box)
    requires !NonDegenerate(t)
    ensures FillBox(t, b) == []
  {
    DegenerateScanEmpty(t, b.iMin, b.iMax + 1, b.jMin, b.jMax + 1);
  }

  lemma {:induction false} DegenerateScanEmpty(t: Tri, lo: int, hi: int, jLo: int, jHi: int)
    requires !NonDegenerate(t)
    ensures Scan(t, lo, hi, jLo, jHi) == []
    decreases hi - lo
  {
    if hi > lo {
      DegenerateScanEmpty(t, lo, hi - 1, jLo, jHi);
      DegenerateColumnEmpty(t, hi - 1, jLo, jHi);
    }
  }

  lemma {:induction false} DegenerateColumnEmpty(t: Tri, i: int, lo: int, hi: int)
    requires !NonDegenerate(t)
    ensures Column(t, i, lo, hi) == []
    decreases hi - lo
  {
    if hi > lo {
      DegenerateColumnEmpty(t, i, lo, hi - 1);
    }
  }

  /** Column-major order: by column, and within a column by row. */
  predicate ColumnMajorBefore(p: Point, q: Point) {
    p.x < q.x || (p.x == q.x && p.y < q.y)
  }

  predicate StrictlyOrdered(s: seq<Point>) {
    forall k, l :: 0 <= k < l < |s| ==> ColumnMajorBefore(s[k], s[l])
  }

  lemma OrderedConcat(s: seq<Point>, u: seq<Point>)
    requires StrictlyOrdered(s) && StrictlyOrdered(u)
    requires forall p, q :: p in s && q in u ==> ColumnMajorBefore(p, q)
    ensures StrictlyOrdered(s + u)
  {
    forall k, l | 0 <= k < l < |s + u| ensures ColumnMajorBefore((s + u)[k], (s + u)[l]) {
      if l >= |s| && k < |s| {
        assert (s + u)[k] in s && (s + u)[l] in u;
      } else if k >= |s| {
        assert (s + u)[k] == u[k - |s|] && (s + u)[l] == u[l - |s|];
      }
    }
  }

  lemma {:induction false} ColumnOrdered(t: Tri, i: int, lo: int, hi: int)
    ensures StrictlyOrdered(Column(t, i, lo, hi))
    decreases hi - lo
  {
    if hi > lo {
      ColumnOrdered(t, i, lo, hi - 1);
      forall p | p in Column(t, i, lo, hi - 1) ensures p.x == i && p.y < hi - 1 {
        ColumnMembers(t, i, lo, hi - 1, p);
      }
      var last := if InTriangle(Point(i, hi - 1), t) then [Point(i, hi - 1)] else [];
      OrderedConcat(Column(t, i, lo, hi - 1), last);
    }
  }

  lemma {:induction false} ScanOrdered(t: Tri, lo: int, hi: int, jLo: int, jHi: int)
    ensures StrictlyOrdered(Scan(t, lo, hi, jLo, jHi))
    decreases hi - lo
  {
    if hi > lo {
      ScanOrdered(t, lo, hi - 1, jLo, jHi);
      ColumnOrdered(t, hi - 1, jLo, jHi);
      forall p, q | p in Scan(t, lo, hi - 1, jLo, jHi) && q in Column(t, hi - 1, jLo, jHi)
        ensures ColumnMajorBefore(p, q)
      {
        ScanMembers(t, lo, hi - 1, jLo, jHi, p);
        ColumnMembers(t, hi - 1, jLo, jHi, q);
      }
      OrderedConcat(Scan(t, lo, hi - 1, jLo, jHi), Column(t, hi - 1, jLo, jHi));
    }
  }

  /** Pixels come in column-major order, so none is emitted twice. */
  lemma FillOrdered(t: Tri)
    ensures StrictlyOrdered(FillSpec(t))
    ensures forall k, l :: 0 <= k < l < |FillSpec(t)| ==> FillSpec(t)[k] != FillSpec(t)[l]
  {
    FillBoxOrdered(t, ScanBox(t));
  }

  lemma FillBoxOrdered(t: Tri, b: Box)
    ensures StrictlyOrdered(FillBox(t, b))
    ensures forall k, l :: 0 <= k < l < |FillBox(t, b)| ==> FillBox(t, b)[k] != FillBox(t, b)[l]
  {
    ScanOrdered(t, b.iMin, b.iMax + 1, b.jMin, b.jMax + 1);
    var s := FillBox(t, b);
    forall k, l | 0 <= k < l < |s| ensures s[k] != s[l] {
      assert ColumnMajorBefore(s[k], s[l]);
    }
  }
}
