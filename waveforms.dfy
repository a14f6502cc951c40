/** The phase-to-sample shape functions of a voice's oscillators.

    The oscillator evaluates its shape function once per sample on a phase
    angle x that it keeps within one period, [-Pi, Pi]. The square, saw and
    triangle shapes are piecewise linear and are modelled here over the reals;
    the sine shape is not part of this model. */
module Waveforms {

  /** Pi, the positive real constant the shapes are written against. */
  const Pi: real := 3.14159265358979323846

  /** The steepest slope of the triangle shape: it climbs 2 over Pi radians. */
  const TriangleSlope: real := 2.0 / Pi

  function Abs(x: real): real {
    if x < 0.0 then -x else x
  }

  function Min(a: real, b: real): real {
    if a <= b then a else b
  }

  function Max(a: real, b: real): real {
    if a <= b then b else a
  }

  /** Linear re-mapping of value from the range [sourceMin, sourceMax] onto
      [targetMin, targetMax], without clamping, as the framework's jmap does. */
  function Jmap(value: real, sourceMin: real, sourceMax: real, targetMin: real, targetMax: real): (r: real)
    requires sourceMin != sourceMax
    ensures value == sourceMin ==> r == targetMin
    ensures value == sourceMax ==> r == targetMax
  {
    DivCancel(targetMax - targetMin, sourceMax - sourceMin);
    targetMin + ((targetMax - targetMin) * (value - sourceMin)) / (sourceMax - sourceMin)
  }

  lemma DivCancel(a: real, b: real)
    requires b != 0.0
    ensures a * b / b == a
  {
    var q := a * b / b;
    assert q * b == a * b;
    assert (q - a) * b == 0.0;
  }

  /** Jmap is an affine map: moving the value by d moves the result by the
      ratio of the two ranges times d. */
  lemma JmapAffine(value: real, other: real, sourceMin: real, sourceMax: real, targetMin: real, targetMax: real)
    requires sourceMin != sourceMax
    ensures Jmap(value, sourceMin, sourceMax, targetMin, targetMax) - Jmap(other, sourceMin, sourceMax, targetMin, targetMax)
            == (targetMax - targetMin) / (sourceMax - sourceMin) * (value - other)
  {
    var k := (targetMax - targetMin) / (sourceMax - sourceMin);
    var w := sourceMax - sourceMin;
    assert (targetMax - targetMin) * (value - sourceMin) / w == k * (value - sourceMin);
    assert (targetMax - targetMin) * (other - sourceMin) / w == k * (other - sourceMin);
    assert k * (value - sourceMin) - k * (other - sourceMin) == k * (value - other);
  }

  /** Scaling by a non-negative factor keeps a value between its bounds. */
  lemma ScaleBetween(k: real, lo: real, d: real, hi: real)
    requires k >= 0.0 && lo <= d <= hi
    ensures k * lo <= k * d <= k * hi
  {
    assert k * (d - lo) >= 0.0;
    assert k * (hi - d) >= 0.0;
  }

  /** A value inside the source range is mapped inside the target range. */
  lemma JmapWithin(value: real, sourceMin: real, sourceMax: real, targetMin: real, targetMax: real)
    requires sourceMin < sourceMax
    requires sourceMin <= value <= sourceMax
    ensures Min(targetMin, targetMax) <= Jmap(value, sourceMin, sourceMax, targetMin, targetMax) <= Max(targetMin, targetMax)
  {
    var w := sourceMax - sourceMin;
    var t := (value - sourceMin) / w;
    assert t * w == value - sourceMin;
    assert 0.0 <= t <= 1.0;
    var d := targetMax - targetMin;
    assert d * (value - sourceMin) / w == d * t;
    if d >= 0.0 {
      ScaleBetween(d, 0.0, t, 1.0);
    } else {
      ScaleBetween(-d, 0.0, t, 1.0);
      assert -d * t == -(d * t);
    }
  }

  /** Square shape: -1 on the negative half of the period, 1 on the rest. */
  function Square(x: real): (r: real)
    ensures r == -1.0 || r == 1.0
    ensures r == -1.0 <==> x < 0.0
  {
    if x < 0.0 then -1.0 else 1.0
  }

  /** Saw shape: the phase divided by 2 * Pi (not by Pi), so over one period
      it ramps from -1/2 to 1/2. */
  function Saw(x: real): (r: real)
    ensures r * (2.0 * Pi) == x
    ensures -Pi <= x <= Pi ==> -0.5 <= r <= 0.5
  {
    x / (2.0 * Pi)
  }

  lemma SawMonotone(x: real, y: real)
    requires x <= y
    ensures Saw(x) <= Saw(y)
  {
  }

  /** The saw reaches exactly -1/2 and 1/2 at the ends of the period. */
  lemma SawExtremes()
    ensures Saw(-Pi) == -0.5 && Saw(Pi) == 0.5 && Saw(0.0) == 0.0
  {
  }

  /** The three segments of the triangle shape, each a jmap of its own
      interval of the phase. */
  function TriangleFirst(x: real): real {
    Jmap(x, -Pi, -Pi / 2.0, 0.0, -1.0)
  }

  function TriangleMiddle(x: real): real {
    Jmap(x, -Pi / 2.0, Pi / 2.0, -1.0, 1.0)
  }

  function TriangleLast(x: real): real {
    Jmap(x, Pi / 2.0, Pi, 1.0, 0.0)
  }

  /** Triangle shape: from 0 down to -1 over the first quarter of the period,
      from -1 up to 1 over the middle half, from 1 down to 0 over the last
      quarter. */
  function Triangle(x: real): (r: real)
    ensures -Pi <= x <= Pi ==> -1.0 <= r <= 1.0
  {
    if x <= -Pi / 2.0 then
      JmapWithin(if x < -Pi then -Pi else x, -Pi, -Pi / 2.0, 0.0, -1.0);
      TriangleFirst(x)
    else if x > -Pi / 2.0 && x <= Pi / 2.0 then
      JmapWithin(x, -Pi / 2.0, Pi / 2.0, -1.0, 1.0);
      TriangleMiddle(x)
    else
      JmapWithin(if x > Pi then Pi else x, Pi / 2.0, Pi, 1.0, 0.0);
      TriangleLast(x)
  }

  /** The three branch conditions of Triangle partition the reals: exactly one
      holds for each x, and the final else branch is taken exactly when x > Pi/2. */
  lemma TriangleBranchesPartition(x: real)
    ensures (if x <= -Pi / 2.0 then 1 else 0)
          + (if x > -Pi / 2.0 && x <= Pi / 2.0 then 1 else 0)
          + (if x > Pi / 2.0 then 1 else 0) == 1
    ensures !(x <= -Pi / 2.0) && !(x > -Pi / 2.0 && x <= Pi / 2.0) <==> x > Pi / 2.0
  {
  }

  /** First segment: -Pi goes to 0 and -Pi/2 to -1, with slope -2/Pi. */
  lemma TriangleFirstSegment(x: real)
    requires x <= -Pi / 2.0
    ensures Triangle(x) == -2.0 / Pi * (x + Pi)
    ensures Triangle(-Pi) == 0.0 && Triangle(-Pi / 2.0) == -1.0
  {
    JmapAffine(x, -Pi, -Pi, -Pi / 2.0, 0.0, -1.0);
  }

  /** Middle segment: -Pi/2 goes to -1 and Pi/2 to 1, with slope 2/Pi. */
  lemma TriangleMiddleSegment(x: real)
    requires -Pi / 2.0 < x <= Pi / 2.0
    ensures Triangle(x) == 2.0 / Pi * x
    ensures Triangle(Pi / 2.0) == 1.0 && Triangle(0.0) == 0.0
  {
    JmapAffine(x, 0.0, -Pi / 2.0, Pi / 2.0, -1.0, 1.0);
    JmapAffine(0.0, -Pi / 2.0, -Pi / 2.0, Pi / 2.0, -1.0, 1.0);
  }

  /** Last segment: Pi/2 goes to 1 and Pi to 0, with slope -2/Pi. */
  lemma TriangleLastSegment(x: real)
    requires x > Pi / 2.0
    ensures Triangle(x) == 2.0 / Pi * (Pi - x)
    ensures Triangle(Pi) == 0.0
  {
    JmapAffine(x, Pi, Pi / 2.0, Pi, 1.0, 0.0);
  }

  /** The neighbouring segments agree at the two breakpoints, so the triangle
      has no jump at -Pi/2 or Pi/2. */
  lemma TriangleJoins()
    ensures TriangleFirst(-Pi / 2.0) == TriangleMiddle(-Pi / 2.0) == -1.0
    ensures TriangleMiddle(Pi / 2.0) == TriangleLast(Pi / 2.0) == 1.0
  {
  }

  /** The three-segment shape with half-period p and slope k, in closed form. */
  function Segments(p: real, k: real, x: real): real {
    if x <= -p / 2.0 then -k * (x + p)
    else if x <= p / 2.0 then k * x
    else k * (p - x)
  }

  /** The triangle is the closed-form shape with half-period Pi and slope 2/Pi. */
  lemma TriangleClosedForm(x: real)
    ensures Triangle(x) == Segments(Pi, TriangleSlope, x)
  {
    if x <= -Pi / 2.0 {
      TriangleFirstSegment(x);
      assert -2.0 / Pi * (x + Pi) == -(2.0 / Pi) * (x + Pi);
    } else if x <= Pi / 2.0 {
      TriangleMiddleSegment(x);
    } else {
      TriangleLastSegment(x);
    }
  }

  /** The closed-form shape never changes faster than its slope k. */
  lemma SegmentsLipschitz(p: real, k: real, x: real, y: real)
    requires p > 0.0 && k > 0.0 && x <= y
    ensures -k * (y - x) <= Segments(p, k, y) - Segments(p, k, x) <= k * (y - x)
  {
    // the change of the shape is k times a slope-one change s
    var s: real;
    if x <= -p / 2.0 {
      if y <= -p / 2.0 {
        s := -(y - x);
        assert -k * (y + p) + k * (x + p) == k * s;
      } else if y <= p / 2.0 {
        s := y + x + p;
        assert k * y + k * (x + p) == k * s;
      } else {
        s := 2.0 * p - y + x;
        assert k * (p - y) + k * (x + p) == k * s;
      }
    } else if x <= p / 2.0 {
      if y <= p / 2.0 {
        s := y - x;
        assert k * y - k * x == k * s;
      } else {
        s := p - y - x;
        assert k * (p - y) - k * x == k * s;
      }
    } else {
      s := -(y - x);
      assert k * (p - y) - k * (p - x) == k * s;
    }
    var d := Segments(p, k, y) - Segments(p, k, x);
    assert d == k * s;
    assert -(y - x) <= s;
    assert s <= y - x;
    ScaleBetween(k, -(y - x), s, y - x);
    assert k * s <= k * (y - x);
    assert k * -(y - x) == -k * (y - x);
    assert d <= k * (y - x);
    assert -k * (y - x) <= d;
  }

  /** The closed-form shape never changes faster than its slope k, in
      either order of the two phases. */
  lemma SegmentsLipschitzAbs(p: real, k: real, x: real, y: real)
    requires p > 0.0 && k > 0.0
    ensures Abs(Segments(p, k, x) - Segments(p, k, y)) <= k * Abs(x - y)
  {
    if x <= y {
      SegmentsLipschitz(p, k, x, y);
      assert Abs(x - y) == y - x;
    } else {
      SegmentsLipschitz(p, k, y, x);
      assert Abs(x - y) == x - y;
    }
  }

  /** The triangle never changes faster than its slope 2/Pi. */
  lemma TriangleLipschitz(x: real, y: real)
    ensures Abs(Triangle(x) - Triangle(y)) <= TriangleSlope * Abs(x - y)
  {
    TriangleClosedForm(x);
    TriangleClosedForm(y);
    SegmentsLipschitzAbs(Pi, TriangleSlope, x, y);
  }

  /** The triangle is continuous at every phase c (in particular at the
      breakpoints -Pi/2 and Pi/2): within delta of c it stays within eps of
      its value at c. */
  lemma TriangleContinuous(c: real, eps: real) returns (delta: real)
    requires eps > 0.0
    ensures delta > 0.0
    ensures forall x :: Abs(x - c) < delta ==> Abs(Triangle(x) - Triangle(c)) < eps
  {
    delta := eps * Pi / 2.0;
    forall x | Abs(x - c) < delta
      ensures Abs(Triangle(x) - Triangle(c)) < eps
    {
      TriangleLipschitz(x, c);
    }
  }
}
