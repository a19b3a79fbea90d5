/**
 * drawLine of a2.js: a digital differential analyser. The larger of |dx|
 * and |dy| is the number of steps; x and y advance by dx/step and dy/step
 * and are rounded to a pixel after each addition.
 *
 * Coordinates are integers (the command line hands parseInt values on, at a
 * device-pixel ratio of 1). The increments and the running position are
 * exact reals here, where the source accumulates doubles.
 */
module Line {
  import opened Geometry

  function Abs(n: int): (m: nat)
    ensures m == n || m == -n
  {
    if n < 0 then -n else n
  }

  /** `step` of drawLine: |dx| when it is strictly larger than |dy|, otherwise |dy|. */
  function StepCount(x0: int, y0: int, x1: int, y1: int): (step: nat)
    ensures step >= Abs(x1 - x0) && step >= Abs(y1 - y0)
    ensures step == Abs(x1 - x0) || step == Abs(y1 - y0)
  {
    if Abs(x1 - x0) > Abs(y1 - y0) then Abs(x1 - x0) else Abs(y1 - y0)
  }

  /**
   * `dx /= step`. When step is 0 the source computes NaN, which nothing reads
   * because the loop does not run; the model uses 0 there.
   */
  function Increment(d: int, step: nat): (inc: real)
    ensures step > 0 ==> inc * step as real == d as real
  {
    if step == 0 then 0.0 else d as real / step as real
  }

  /** The running coordinate after k increments, in exact arithmetic. */
  function Sample(start: int, inc: real, k: int): real {
    start as real + k as real * inc
  }

  lemma SampleNext(start: int, inc: real, k: int)
    ensures Sample(start, inc, k + 1) == Sample(start, inc, k) + inc
  {
  }

  /** The k-th pixel of the line: the start point advanced k increments, rounded. */
  function LinePixel(x0: int, y0: int, incX: real, incY: real, k: int): Point {
    Pixel(RealPoint(Sample(x0, incX, k), Sample(y0, incY, k)))
  }

  /**
   * The pixels drawLine emits, in order: samples 0 .. step. The first is the
   * start point and the last is the end point.
   */
  function LineSpec(x0: int, y0: int, x1: int, y1: int): (pixels: seq<Point>)
    ensures |pixels| == StepCount(x0, y0, x1, y1) + 1
    ensures pixels[0] == Point(x0, y0)
    ensures pixels[|pixels| - 1] == Point(x1, y1)
  {
    var step := StepCount(x0, y0, x1, y1);
    var incX, incY := Increment(x1 - x0, step), Increment(y1 - y0, step);
    RoundOfInteger(x0);
    RoundOfInteger(y0);
    assert Sample(x0, incX, step) == x1 as real && Sample(y0, incY, step) == y1 as real by {
      if step > 0 {
        SampleReachesEnd(x0, x1, step);
        SampleReachesEnd(y0, y1, step);
      }
    }
    RoundOfInteger(x1);
    RoundOfInteger(y1);
    seq(step + 1, k => LinePixel(x0, y0, incX, incY, k))
  }

  /** drawLine, returning what it hands to drawPointsGPU. */
  method DrawLine(x0: int, y0: int, x1: int, y1: int, color: Color)
    returns (pixels: seq<Point>, colors: seq<Color>)
    ensures pixels == LineSpec(x0, y0, x1, y1)
    ensures colors == Uniform(color, |pixels|)
  {
    var dx, dy := x1 - x0, y1 - y0;
    var step: nat;
    if Abs(dx) > Abs(dy) {
      step := Abs(dx);
    } else {
      step := Abs(dy);
    }
    var incX, incY := Increment(dx, step), Increment(dy, step);

    var x, y := x0 as real, y0 as real;
    pixels := [Pixel(RealPoint(x, y))];
    colors := [color];
    var i := 0;
    while i < step
      invariant 0 <= i <= step
      invariant x == Sample(x0, incX, i) && y == Sample(y0, incY, i)
      invariant |pixels| == i + 1
      invariant forall k :: 0 <= k <= i ==> pixels[k] == LinePixel(x0, y0, incX, incY, k)
      invariant colors == Uniform(color, i + 1)
    {
      SampleNext(x0, incX, i);
      SampleNext(y0, incY, i);
      x, y := x + incX, y + incY;
      pixels := pixels + [Pixel(RealPoint(x, y))];
      colors := colors + [color];
      i := i + 1;
    }
  }

  /** One pixel more than the larger coordinate difference, i.e. max(|dx|, |dy|) + 1. */
  lemma LineLength(x0: int, y0: int, x1: int, y1: int)
    ensures |LineSpec(x0, y0, x1, y1)| - 1 >= Abs(x1 - x0)
    ensures |LineSpec(x0, y0, x1, y1)| - 1 >= Abs(y1 - y0)
    ensures |LineSpec(x0, y0, x1, y1)| - 1 == Abs(x1 - x0) || |LineSpec(x0, y0, x1, y1)| - 1 == Abs(y1 - y0)
  {
  }

  lemma RoundOfInteger(n: int)
    ensures Round(n as real) == n
  {
  }

  /** After all `step` increments the running coordinate is the end coordinate. */
  lemma SampleReachesEnd(start: int, end: int, step: nat)
    requires step > 0
    ensures Sample(start, Increment(end - start, step), step) == end as real
  {
    var inc := Increment(end - start, step);
    assert inc * step as real == (end - start) as real;
  }

  /** Coincident endpoints give exactly one pixel. */
  lemma LineSinglePoint(x0: int, y0: int)
    ensures LineSpec(x0, y0, x0, y0) == [Point(x0, y0)]
  {
  }

  lemma RoundMovesByAtMostOne(v: real, s: real)
    requires -1.0 <= s <= 1.0
    ensures -1 <= Round(v + s) - Round(v) <= 1
  {
  }

  lemma NegativeTimesPositive(x: real, s: real)
    requires s > 0.0
    ensures x < 0.0 ==> x * s < 0.0
  {
  }

  lemma QuotientAtMostOne(n: int, s: int)
    requires s > 0 && -s <= n <= s
    ensures -1.0 <= n as real / s as real <= 1.0
    ensures n == s ==> n as real / s as real == 1.0
    ensures n == -s ==> n as real / s as real == -1.0
  {
    var q, S := n as real / s as real, s as real;
    assert q * S == n as real;
    assert (1.0 - q) * S == (s - n) as real;
    assert (1.0 + q) * S == (s + n) as real;
    NegativeTimesPositive(1.0 - q, S);
    NegativeTimesPositive(1.0 + q, S);
  }

  /** An increment is at most one in size, and exactly +-1 on the axis whose difference is `step`. */
  lemma IncrementBounds(d: int, step: nat)
    requires Abs(d) <= step
    ensures -1.0 <= Increment(d, step) <= 1.0
    ensures step > 0 && Abs(d) == step ==> Increment(d, step) == if d < 0 then -1.0 else 1.0
  {
    if step > 0 {
      QuotientAtMostOne(d, step);
    }
  }

  /** Along the major axis every sample is an integer. */
  lemma SampleOnMajorAxis(start: int, sgn: int, k: int)
    requires sgn == 1 || sgn == -1
    ensures Sample(start, sgn as real, k) == (start + k * sgn) as real
  {
  }

  /**
   * Consecutive pixels are 8-neighbours: each coordinate changes by at most
   * one, and the coordinate with the larger difference changes by exactly one,
   * so no pixel repeats its predecessor.
   */
  lemma LineConnected(x0: int, y0: int, x1: int, y1: int, k: nat)
    requires k + 1 < |LineSpec(x0, y0, x1, y1)|
    ensures -1 <= LineSpec(x0, y0, x1, y1)[k + 1].x - LineSpec(x0, y0, x1, y1)[k].x <= 1
    ensures -1 <= LineSpec(x0, y0, x1, y1)[k + 1].y - LineSpec(x0, y0, x1, y1)[k].y <= 1
    ensures LineSpec(x0, y0, x1, y1)[k + 1] != LineSpec(x0, y0, x1, y1)[k]
  {
    var step := StepCount(x0, y0, x1, y1);
    var incX, incY := Increment(x1 - x0, step), Increment(y1 - y0, step);
    assert LineSpec(x0, y0, x1, y1)[k] == LinePixel(x0, y0, incX, incY, k);
    assert LineSpec(x0, y0, x1, y1)[k + 1] == LinePixel(x0, y0, incX, incY, k + 1);
    IncrementBounds(x1 - x0, step);
    IncrementBounds(y1 - y0, step);
    SampleNext(x0, incX, k);
    SampleNext(y0, incY, k);
    RoundMovesByAtMostOne(Sample(x0, incX, k), incX);
    RoundMovesByAtMostOne(Sample(y0, incY, k), incY);
    if step == Abs(x1 - x0) {
      var sgn := if x1 - x0 < 0 then -1 else 1;
      SampleOnMajorAxis(x0, sgn, k);
      SampleOnMajorAxis(x0, sgn, k + 1);
      RoundOfInteger(x0 + k * sgn);
      RoundOfInteger(x0 + (k + 1) * sgn);
    } else {
      var sgn := if y1 - y0 < 0 then -1 else 1;
      SampleOnMajorAxis(y0, sgn, k);
      SampleOnMajorAxis(y0, sgn, k + 1);
      RoundOfInteger(y0 + k * sgn);
      RoundOfInteger(y0 + (k + 1) * sgn);
    }
  }

  /** Sampling from the far end with the negated increment visits the same positions backwards. */
  lemma SampleFromOtherEnd(start: int, end: int, step: nat, k: int)
    requires step > 0
    ensures Sample(end, Increment(start - end, step), k) == Sample(start, Increment(end - start, step), step - k)
  {
    var inc := Increment(end - start, step);
    assert Increment(start - end, step) == -inc;
    SampleReachesEnd(start, end, step);
    calc {
      Sample(end, -inc, k);
      end as real - k as real * inc;
      start as real + step as real * inc - k as real * inc;
      start as real + (step - k) as real * inc;
    }
  }

  /**
   * In exact arithmetic drawing the line from the other end gives the same
   * pixels in reverse order.
   */
  lemma LineReversed(x0: int, y0: int, x1: int, y1: int)
    ensures |LineSpec(x1, y1, x0, y0)| == |LineSpec(x0, y0, x1, y1)|
    ensures forall k :: 0 <= k < |LineSpec(x0, y0, x1, y1)| ==>
      LineSpec(x1, y1, x0, y0)[k] == LineSpec(x0, y0, x1, y1)[|LineSpec(x0, y0, x1, y1)| - 1 - k]
  {
    var step := StepCount(x0, y0, x1, y1);
    assert StepCount(x1, y1, x0, y0) == step;
    var incX, incY := Increment(x1 - x0, step), Increment(y1 - y0, step);
    var revX, revY := Increment(x0 - x1, step), Increment(y0 - y1, step);
    var fwd, bwd := LineSpec(x0, y0, x1, y1), LineSpec(x1, y1, x0, y0);
    forall k | 0 <= k <= step
      ensures bwd[k] == fwd[step - k]
    {
      assert bwd[k] == LinePixel(x1, y1, revX, revY, k);
      assert fwd[step - k] == LinePixel(x0, y0, incX, incY, step - k);
      if step > 0 {
        SampleFromOtherEnd(x0, x1, step, k);
        SampleFromOtherEnd(y0, y1, step, k);
      }
    }
  }
}
