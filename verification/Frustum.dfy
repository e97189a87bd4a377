/**
 * The water volume of a vessel with sloping walls, summed in slices of one
 * centimetre, against the closed formula for a frustum. Over the reals.
 *
 * The sum takes the rim's radius at height 0 and the base's at full height, so
 * it is the volume of the upper part of the vessel; `MeasuredFromTheRim` says
 * when that is the volume of the water standing in it.
 */
module Frustum {

  const PI: real := 3.14159265358979323846

  /** Whole centimetres, as the sensor stores them. */
  datatype Vessel = Vessel(diameterTop: int, diameterBase: int, height: int)

  function Top(v: Vessel): real {
    v.diameterTop as real / 2.0
  }

  function Base(v: Vessel): real {
    v.diameterBase as real / 2.0
  }

  /** The radius the slices use at height `x`. */
  function Radius(v: Vessel, x: real): real
    requires v.height > 0
  {
    Top(v) - (Top(v) - Base(v)) * (x / (v.height as real))
  }

  /** Three times the mean square of the radii between two heights. */
  function Area(r1: real, r2: real): real {
    r1 * r1 + r1 * r2 + r2 * r2
  }

  /** Litres of a frustum `w` centimetres high. */
  function Part(w: real, r1: real, r2: real): real {
    PI / 3000.0 * (w * Area(r1, r2))
  }

  /** One slice, as the loop adds it. */
  function Slice(r1: real, r2: real): real {
    (1.0 / 3.0) * PI * 1.0 * Area(r1, r2) / 1000.0
  }

  /** Litres between height 0 and `x`, in closed form. */
  function Closed(v: Vessel, x: real): real
    requires v.height > 0
  {
    Part(x, Radius(v, 0.0), Radius(v, x))
  }

  /** The water height, cut to the vessel. */
  function Capped(v: Vessel, h: real): real {
    if h <= 0.0 then 0.0 else if h > v.height as real then v.height as real else h
  }

  /** Slices begun below the water height. */
  function Slices(v: Vessel, h: real): (n: nat)
    ensures var a := Capped(v, h);
            a <= n as real && (n > 0 ==> (n - 1) as real < a) && (v.height > 0 ==> n <= v.height)
  {
    var a := Capped(v, h);
    if a <= 0.0 then 0 else -((-a).Floor)
  }

  /** Litres of the first `n` slices. */
  function Sum(v: Vessel, n: nat): real
    requires v.height > 0
  {
    if n == 0 then 0.0 else Sum(v, n - 1) + Slice(Radius(v, (n - 1) as real), Radius(v, n as real))
  }

  // ---------------------------------------------------------- telescoping

  /** `x` times the frustum polynomial, with the radius `top - slope * x`. */
  function Cubic(top: real, slope: real, x: real): real {
    x * (3.0 * (top * top) - 3.0 * (top * slope) * x + (slope * slope) * (x * x))
  }

  function Slope(v: Vessel): real
    requires v.height > 0
  {
    (Top(v) - Base(v)) / (v.height as real)
  }

  function Line(top: real, slope: real, x: real): real {
    top - slope * x
  }

  lemma RadiusLinear(v: Vessel, x: real)
    requires v.height > 0
    ensures Radius(v, x) == Line(Top(v), Slope(v), x) && Radius(v, 0.0) == Top(v)
  {
    Divided(Top(v) - Base(v), x, v.height as real);
  }

  lemma Divided(d: real, x: real, h: real)
    requires h > 0.0
    ensures d * (x / h) == (d / h) * x && 0.0 / h == 0.0
  {
    var q := 1.0 / h;
    assert x / h == x * q && d / h == d * q;
  }

  lemma AreaBetween(top: real, slope: real, a: real, b: real)
    ensures Area(Line(top, slope, a), Line(top, slope, b))
            == 3.0 * (top * top) - 3.0 * (top * slope) * (a + b) + (slope * slope) * (a * a + a * b + b * b)
  {
    var p, q := slope * a, slope * b;
    assert top * p == (top * slope) * a && top * q == (top * slope) * b;
    assert p * p == (slope * slope) * (a * a) && p * q == (slope * slope) * (a * b) && q * q == (slope * slope) * (b * b);
  }

  lemma AreaFromTop(top: real, slope: real, b: real)
    ensures b * Area(top, Line(top, slope, b)) == Cubic(top, slope, b)
  {
    AreaBetween(top, slope, 0.0, b);
    assert Line(top, slope, 0.0) == top;
  }

  lemma CubicDifference(p: real, q: real, s: real, a: real, b: real)
    ensures b * (p - q * b + s * (b * b)) - a * (p - q * a + s * (a * a))
            == (b - a) * (p - q * (a + b) + s * (a * a + a * b + b * b))
  {}

  lemma CubicStep(top: real, slope: real, a: real, b: real)
    ensures Cubic(top, slope, b) - Cubic(top, slope, a) == (b - a) * Area(Line(top, slope, a), Line(top, slope, b))
  {
    hide Area, Line;
    AreaBetween(top, slope, a, b);
    CubicDifference(3.0 * (top * top), 3.0 * (top * slope), slope * slope, a, b);
  }

  lemma LitresDifference(x: real, y: real, z: real)
    requires y - x == z
    ensures PI / 3000.0 * y - PI / 3000.0 * x == PI / 3000.0 * z
  {}

  /** Volume is additive along the height. */
  lemma PartStep(top: real, slope: real, a: real, b: real)
    ensures Part(b, top, Line(top, slope, b)) - Part(a, top, Line(top, slope, a)) == Part(b - a, Line(top, slope, a), Line(top, slope, b))
  {
    hide Area, Line, Cubic;
    AreaFromTop(top, slope, a);
    AreaFromTop(top, slope, b);
    CubicStep(top, slope, a, b);
    LitresDifference(a * Area(top, Line(top, slope, a)), b * Area(top, Line(top, slope, b)),
                     (b - a) * Area(Line(top, slope, a), Line(top, slope, b)));
  }

  lemma ClosedCubic(v: Vessel, x: real)
    requires v.height > 0
    ensures Closed(v, x) == PI / 3000.0 * Cubic(Top(v), Slope(v), x)
  {
    hide Radius, Slope, Cubic, Area, Line;
    RadiusLinear(v, x);
    AreaFromTop(Top(v), Slope(v), x);
  }

  lemma ClosedStep(v: Vessel, a: real, b: real)
    requires v.height > 0
    ensures Closed(v, b) - Closed(v, a) == Part(b - a, Radius(v, a), Radius(v, b))
  {
    hide Radius, Slope, Part, Line;
    RadiusLinear(v, a);
    RadiusLinear(v, b);
    PartStep(Top(v), Slope(v), a, b);
  }

  lemma SliceIsPart(r1: real, r2: real)
    ensures Slice(r1, r2) == Part(1.0, r1, r2)
  {
    hide Area;
  }

  /** The slices telescope to the closed form. */
  lemma {:induction false} SumIsClosed(v: Vessel, n: nat)
    requires v.height > 0
    ensures Sum(v, n) == Closed(v, n as real)
  {
    hide Radius, Closed, Slice, Part;
    if n == 0 {
      ClosedZero(v);
    } else {
      var a, b := (n - 1) as real, n as real;
      SumIsClosed(v, n - 1);
      ClosedStep(v, a, b);
      SliceIsPart(Radius(v, a), Radius(v, b));
      assert b - a == 1.0;
    }
  }

  // ------------------------------------------------------------- the loop

  method WaterVolume(v: Vessel, heightCm: real) returns (litres: real)
    ensures heightCm <= 0.0 || v.height <= 0 ==> litres == 0.0
    ensures heightCm > 0.0 && v.height > 0 ==> litres == Closed(v, Slices(v, heightCm) as real)
  {
    hide Closed, Slice, Sum, Radius;
    if heightCm <= 0.0 {
      return 0.0;
    }
    var water := heightCm;
    if water > v.height as real {
      water := v.height as real;
    }
    var total := v.height as real;
    var rTop := v.diameterTop as real / 2.0;
    var rBase := v.diameterBase as real / 2.0;
    litres := 0.0;
    var i := 0;
    if v.height > 0 {
      SumStart(v);
    }
    while i as real < water
      invariant 0 <= i && (i > 0 ==> v.height > 0 && (i - 1) as real < water)
      invariant if v.height > 0 then litres == Sum(v, i) else litres == 0.0
      decreases v.height - i
    {
      assert i < v.height;
      var h1 := i as real;
      var h2 := (i + 1) as real;
      var r1 := rTop - (rTop - rBase) * (h1 / total);
      var r2 := rTop - (rTop - rBase) * (h2 / total);
      RadiusIs(v, h1, rTop, rBase, total, r1);
      RadiusIs(v, h2, rTop, rBase, total, r2);
      SumNext(v, i);
      litres := litres + Slice(r1, r2);
      i := i + 1;
    }
    if v.height > 0 {
      SumIsClosed(v, i);
      SlicesAre(v, heightCm, i);
    }
  }

  lemma RadiusIs(v: Vessel, x: real, rTop: real, rBase: real, total: real, r: real)
    requires v.height > 0
    requires rTop == v.diameterTop as real / 2.0 && rBase == v.diameterBase as real / 2.0 && total == v.height as real
    requires r == rTop - (rTop - rBase) * (x / total)
    ensures r == Radius(v, x)
  {}

  lemma SumStart(v: Vessel)
    requires v.height > 0
    ensures Sum(v, 0) == 0.0
  {}

  lemma SumNext(v: Vessel, n: nat)
    requires v.height > 0
    ensures Sum(v, n + 1) == Sum(v, n) + Slice(Radius(v, n as real), Radius(v, (n + 1) as real))
  {
    hide Slice, Radius;
  }

  lemma SlicesAre(v: Vessel, h: real, n: nat)
    requires v.height > 0 && Capped(v, h) <= n as real && (n > 0 ==> (n - 1) as real < Capped(v, h))
    ensures n == Slices(v, h)
  {}

  // ------------------------------------------------------------ the results

  /** What the sensor reports for a water height. */
  function Volume(v: Vessel, h: real): real
    requires v.height > 0
  {
    Closed(v, Slices(v, h) as real)
  }

  lemma AreaNonNegative(x: real, y: real)
    ensures Area(x, y) >= 0.0
    ensures Area(x, y) == 0.0 ==> x == 0.0 && y == 0.0
  {
    var s := x + y / 2.0;
    SquareNonNegative(s);
    SquareNonNegative(y);
    assert Area(x, y) == s * s + 3.0 / 4.0 * (y * y);
    if Area(x, y) == 0.0 {
      assert y * y == 0.0 && s * s == 0.0;
      assert y == 0.0 && s == 0.0;
    }
  }

  lemma SquareNonNegative(x: real)
    ensures x * x >= 0.0 && (x * x == 0.0 ==> x == 0.0)
  {
    ZeroProduct(x, x);
    var y := -x;
    assert y * y == x * x;
    if x > 0.0 {
      assert x * x > 0.0;
    } else if y > 0.0 {
      assert y * y > 0.0;
    }
  }

  lemma PartNonNegative(w: real, r1: real, r2: real)
    requires w >= 0.0
    ensures Part(w, r1, r2) >= 0.0
    ensures w > 0.0 && (r1 != 0.0 || r2 != 0.0) ==> Part(w, r1, r2) > 0.0
  {
    AreaNonNegative(r1, r2);
    hide Area;
    var q := Area(r1, r2);
    assert w * q >= 0.0;
    if w > 0.0 && q > 0.0 {
      assert w * q > 0.0;
    }
  }

  /** The closed form never falls with the height, and rises unless both radii there are zero. */
  lemma ClosedMonotone(v: Vessel, a: real, b: real)
    requires v.height > 0 && a <= b
    ensures Closed(v, a) <= Closed(v, b)
    ensures a < b && (Radius(v, a) != 0.0 || Radius(v, b) != 0.0) ==> Closed(v, a) < Closed(v, b)
  {
    hide Closed, Radius, Part;
    ClosedStep(v, a, b);
    PartNonNegative(b - a, Radius(v, a), Radius(v, b));
  }

  /** More water never reads as less. */
  lemma VolumeMonotone(v: Vessel, h: real, k: real)
    requires v.height > 0 && h <= k
    ensures Volume(v, h) <= Volume(v, k)
  {
    hide Closed;
    ClosedMonotone(v, Slices(v, h) as real, Slices(v, k) as real);
  }

  /** From the rim upwards the reading stays at the full vessel; dry it is zero. */
  lemma VolumeEnds(v: Vessel, h: real)
    requires v.height > 0
    ensures h >= v.height as real ==> Volume(v, h) == Closed(v, v.height as real)
    ensures h <= 0.0 ==> Volume(v, h) == 0.0
  {
    hide Closed;
    ClosedZero(v);
    if h >= v.height as real {
      SlicesAre(v, h, v.height);
    }
  }

  /** A full vessel with rim radius R and base radius r holds pi * h * (R^2 + R*r + r^2) / 3 cubic centimetres. */
  lemma FullVessel(v: Vessel, h: real)
    requires v.height > 0 && h >= v.height as real
    ensures var wide, narrow := v.diameterTop as real / 2.0, v.diameterBase as real / 2.0;
            Volume(v, h) == 3.14159265358979323846 / 3000.0 * (v.height as real * (wide * wide + wide * narrow + narrow * narrow))
  {
    hide Radius, Slices;
    VolumeEnds(v, h);
    RadiusAtEnds(v);
  }

  lemma RadiusAtEnds(v: Vessel)
    requires v.height > 0
    ensures Radius(v, 0.0) == v.diameterTop as real / 2.0 && Radius(v, v.height as real) == v.diameterBase as real / 2.0
  {
    assert v.height as real / v.height as real == 1.0;
  }

  /** Every reading lies between nothing and the full vessel. */
  lemma VolumeInRange(v: Vessel, h: real)
    requires v.height > 0
    ensures 0.0 <= Volume(v, h) <= Closed(v, v.height as real)
  {
    hide Closed, Radius;
    ClosedZero(v);
    ClosedMonotone(v, 0.0, Slices(v, h) as real);
    ClosedMonotone(v, Slices(v, h) as real, v.height as real);
  }

  lemma ClosedZero(v: Vessel)
    requires v.height > 0
    ensures Closed(v, 0.0) == 0.0
  {}

  /** The reading exceeds the closed form at the very height by less than its last slice, unless the vessel has no width at all. */
  lemma WithinOneSlice(v: Vessel, h: real)
    requires 0.0 < h <= v.height as real
    ensures var n := Slices(v, h);
            && n > 0 && Volume(v, h) >= Closed(v, h)
            && (Volume(v, h) - Closed(v, h) < Slice(Radius(v, (n - 1) as real), Radius(v, n as real))
                <==> v.diameterTop != 0 || v.diameterBase != 0)
  {
    hide Closed, Slice, Radius, Top, Base, Sum;
    SumNext(v, Slices(v, h) - 1);
    var n := Slices(v, h);
    ClosedMonotone(v, h, n as real);
    SumIsClosed(v, n);
    SumIsClosed(v, n - 1);
    if v.diameterTop != 0 || v.diameterBase != 0 {
      NotTwiceZero(v, (n - 1) as real, h);
      ClosedMonotone(v, (n - 1) as real, h);
    } else {
      NoWidth(v, h);
      NoWidth(v, n as real);
      NoWidth(v, (n - 1) as real);
    }
  }

  lemma NoWidth(v: Vessel, x: real)
    requires v.height > 0 && v.diameterTop == 0 && v.diameterBase == 0
    ensures Closed(v, x) == 0.0
  {
    assert Radius(v, 0.0) == 0.0 && Radius(v, x) == 0.0;
  }

  /** A sloping line meets zero once. */
  lemma NotTwiceZero(v: Vessel, a: real, b: real)
    requires v.height > 0 && a < b && (v.diameterTop != 0 || v.diameterBase != 0)
    ensures Radius(v, a) != 0.0 || Radius(v, b) != 0.0
  {
    hide Radius, Slope;
    RadiusLinear(v, a);
    RadiusLinear(v, b);
    SlopeFlipped(v);
    var k := Slope(v);
    assert (Top(v) - k * a) - (Top(v) - k * b) == k * (b - a);
    ZeroProduct(k, b - a);
  }

  /** The same vessel stood on its rim. */
  function Flipped(v: Vessel): Vessel {
    Vessel(v.diameterBase, v.diameterTop, v.height)
  }

  /**
   * Water standing `x` deep in the vessel is `Closed(Flipped(v), x)`. The closed
   * form of the slices agrees with it exactly when the walls are straight, or the
   * vessel is empty or full.
   */
  lemma MeasuredFromTheRim(v: Vessel, x: real)
    requires v.diameterTop >= 0 && v.diameterBase >= 0 && v.height > 0
    ensures Closed(v, x) == Closed(Flipped(v), x)
            <==> v.diameterTop == v.diameterBase || x == 0.0 || x == v.height as real
  {
    hide Closed, Cubic, Slope;
    var f, h, slope := Flipped(v), v.height as real, Slope(v);
    ClosedCubic(v, x);
    ClosedCubic(f, x);
    SlopeFlipped(v);
    CubicFlip(Top(v), Base(v), slope, h, x);
    Scaled(Cubic(Top(v), slope, x), Cubic(Base(v), -slope, x));
    FlipGap(Top(v), Base(v), slope, h, x);
  }

  lemma SlopeFlipped(v: Vessel)
    requires v.height > 0
    ensures Slope(Flipped(v)) == -Slope(v) && Slope(v) * (v.height as real) == Top(v) - Base(v)
  {
    Negated(Top(v) - Base(v), v.height as real);
    Quotient(Top(v) - Base(v), v.height as real);
  }

  lemma Scaled(a: real, b: real)
    ensures PI / 3000.0 * a == PI / 3000.0 * b <==> a == b
  {}

  lemma FlipGap(top: real, base: real, slope: real, h: real, x: real)
    requires slope * h == top - base && h > 0.0 && top >= 0.0 && base >= 0.0
    ensures 3.0 * ((x * (h - x)) * (slope * (top + base))) == 0.0 <==> top == base || x == 0.0 || x == h
  {
    ZeroProduct(slope, h);
    ZeroProduct(slope, top + base);
    ZeroProduct(x, h - x);
    ZeroProduct(x * (h - x), slope * (top + base));
  }

  lemma ZeroProduct(a: real, b: real)
    ensures a * b == 0.0 <==> a == 0.0 || b == 0.0
  {}

  lemma Negated(d: real, h: real)
    requires h > 0.0
    ensures (-d) / h == -(d / h)
  {}

  lemma Quotient(d: real, h: real)
    requires h > 0.0
    ensures (d / h) * h == d
  {}

  lemma CubicFlip(top: real, base: real, slope: real, h: real, x: real)
    requires slope * h == top - base
    ensures Cubic(top, slope, x) - Cubic(base, -slope, x) == 3.0 * ((x * (h - x)) * (slope * (top + base)))
  {
    var sum := top + base;
    var d := top - base;
    assert Cubic(top, slope, x) - Cubic(base, -slope, x) == x * (3.0 * (top * top - base * base) - 3.0 * (slope * sum) * x) by {
      Difference(top, base, slope, x);
    }
    assert top * top - base * base == d * sum;
    assert d * sum == (slope * sum) * h by {
      assert (slope * h) * sum == (slope * sum) * h;
    }
    var k := slope * sum;
    assert x * (3.0 * (k * h) - 3.0 * k * x) == 3.0 * ((x * (h - x)) * k) by {
      Factor(x, h, k);
    }
  }

  lemma Factor(x: real, h: real, k: real)
    ensures x * (3.0 * (k * h) - 3.0 * k * x) == 3.0 * ((x * (h - x)) * k)
  {}

  lemma Difference(top: real, base: real, slope: real, x: real)
    ensures Cubic(top, slope, x) - Cubic(base, -slope, x)
            == x * (3.0 * (top * top - base * base) - 3.0 * (slope * (top + base)) * x)
  {
    assert (-slope) * (-slope) == slope * slope;
    assert base * (-slope) == -(base * slope);
    assert slope * (top + base) == top * slope + base * slope;
    Combine(x, top * top, base * base, top * slope, base * slope, (slope * slope) * (x * x));
  }

  lemma Combine(x: real, tt: real, bb: real, ts: real, bs: real, q: real)
    ensures x * (3.0 * tt - 3.0 * ts * x + q) - x * (3.0 * bb - 3.0 * (-bs) * x + q)
            == x * (3.0 * (tt - bb) - 3.0 * (ts + bs) * x)
  {}
}
