/** The tone shaper of the renderer: how `PrecalcRenderStuff` turns the
    user's gain, bias, pinch, output function and caustics settings into
    coefficients, and how `RenderLow` pushes each basis value through
    gain, clamp, bias and pinch, then through the output function and the
    shift, to a value in [0, 1] that indexes the colour gradient.

    Bias and pinch are Schlick's bias and gain functions written with
    precomputed coefficients; the lemmas connect the two forms and derive
    the shape of the curve from the reference one. The cosine is a
    parameter, and `pow(6, gain)` is taken as given. */
module Tone {
  import opened Common

  /** `EPSILON`: how close to 0 and 1 the gained value may come. */
  const EPSILON: real := 1.0 / 1024.0

  const PI: real := 3.14159265358979323846

  /** How far from linear the caustics adjustment is. */
  const WARP_GAIN: real := 0.8

  // ---------------------------------------------------------------------
  // Gain, bias and pinch coefficients

  /** `if (x > 1) x = 1; if (x < -1) x = -1;` */
  function Saturate(x: real): (r: real)
    ensures r == Clamp(x, -1.0, 1.0)
  {
    var y := if x > 1.0 then 1.0 else x;
    if y < -1.0 then -1.0 else y
  }

  /** `p * 0.499 + 0.5`: a saturated bias or pinch as a level kept away
      from 0 and 1. */
  function Level(p: real): (l: real)
    requires -1.0 <= p <= 1.0
    ensures 0.001 <= l <= 0.999
    ensures l == 0.5 <==> p == 0.0
  {
    p * 0.499 + 0.5
  }

  lemma LevelMonotone(p: real, q: real)
    requires -1.0 <= p < q <= 1.0
    ensures Level(p) < Level(q)
  {
  }

  datatype BiasCoef = BiasCoef(c0: real, c1: real)

  datatype PinchCoef = PinchCoef(c0: real, c1: real, c2: real, c3: real, c4: real)

  /** Bias coefficients are `tmp + 1` and `-tmp` with `tmp > -1`. */
  predicate BiasValid(c: BiasCoef) {
    c.c0 > 0.0 && c.c0 + c.c1 == 1.0
  }

  /** The pinch coefficients for a given `tmp`: the lower half uses
      `tmp + 1` and `-2 tmp`, the upper half three coefficients divided by
      `2 tmp + 1`. */
  function PinchFromTmp(tmp: real): PinchCoef
    requires 2.0 * tmp + 1.0 != 0.0
  {
    var tmp2 := 2.0 * tmp + 1.0;
    PinchCoef(tmp + 1.0, -2.0 * tmp, -tmp / tmp2, (1.0 - tmp) / tmp2, 2.0 * tmp / tmp2)
  }

  predicate PinchValid(c: PinchCoef) {
    c.c0 > 0.0 && 2.0 * (c.c0 - 1.0) + 1.0 != 0.0 && c == PinchFromTmp(c.c0 - 1.0)
  }

  /** `tmp = 1 / bias - 2`. */
  function BiasFrom(level: real): (c: BiasCoef)
    requires 0.0 < level < 1.0
    ensures BiasValid(c)
  {
    var tmp := 1.0 / level - 2.0;
    assert 1.0 / level > 1.0 by {
      OverBelowOne(level);
    }
    BiasCoef(tmp + 1.0, -tmp)
  }

  lemma OverBelowOne(x: real)
    requires 0.0 < x < 1.0
    ensures 1.0 / x > 1.0
  {
    assert (1.0 / x) * x == 1.0;
  }

  /** The one pinch level at which `2 tmp + 1` vanishes. No saturated
      setting reaches it exactly: it would need a pinch of -500/1497. */
  const PINCH_SINGULAR: real := 1.0 / 3.0

  lemma PinchSingularOnly(level: real)
    requires 0.0 < level < 1.0
    ensures 2.0 * (1.0 / (1.0 - level) - 2.0) + 1.0 == 0.0 <==> level == PINCH_SINGULAR
  {
    var q := 1.0 / (1.0 - level);
    assert q * (1.0 - level) == 1.0;
    if 2.0 * (q - 2.0) + 1.0 == 0.0 {
      assert q == 1.5;
    }
  }

  /** The singular level lies inside the clamp range: the parameter
      −500/1497 maps onto it, although no `float` equals that ratio. */
  lemma PinchSingularSetting()
    ensures -1.0 <= -500.0 / 1497.0 <= 1.0
    ensures Level(-500.0 / 1497.0) == PINCH_SINGULAR
  {
  }

  /** `tmp = 1 / (1 - pinch) - 2`. */
  function PinchFrom(level: real): (c: PinchCoef)
    requires 0.0 < level < 1.0 && level != PINCH_SINGULAR
    ensures PinchValid(c)
  {
    var tmp := 1.0 / (1.0 - level) - 2.0;
    PinchSingularOnly(level);
    assert 1.0 / (1.0 - level) > 1.0 by {
      OverBelowOne(1.0 - level);
    }
    PinchFromTmp(tmp)
  }

  // Small facts of real arithmetic the curves rest on.

  lemma MulNonneg(a: real, b: real)
    requires 0.0 <= a && 0.0 <= b
    ensures 0.0 <= a * b
  {
  }

  lemma MulPositive(a: real, b: real)
    requires 0.0 < a && 0.0 < b
    ensures 0.0 < a * b
  {
  }

  lemma MulBoth(x: real, y: real, v: real)
    requires x == y
    ensures x * v == y * v
  {
  }

  /** `1 + t u > 0` when `t > -1` and `u` lies in [0, 1]. */
  lemma OnePlusProduct(t: real, u: real)
    requires t > -1.0 && 0.0 <= u <= 1.0
    ensures 1.0 + t * u > 0.0
  {
    if t >= 0.0 {
      MulNonneg(t, u);
    } else {
      MulNonneg(-t, 1.0 - u);
      assert t * u - t == (-t) * (1.0 - u);
    }
  }

  lemma DivUnique(q: real, a: real, d: real)
    requires d != 0.0 && q * d == a
    ensures q == a / d
  {
  }

  lemma PositiveQuotient(a: real, d: real)
    requires a > 0.0 && d > 0.0
    ensures a / d > 0.0
  {
  }

  lemma NonnegQuotient(a: real, d: real)
    requires a >= 0.0 && d > 0.0
    ensures a / d >= 0.0
  {
  }

  lemma DivideOrder(a: real, b: real, d: real)
    requires d > 0.0 && a < b
    ensures a / d < b / d
  {
    assert b / d - a / d == (b - a) / d;
    PositiveQuotient(b - a, d);
  }

  /** `a / p < b / q` follows from `a q < b p` for positive `p`, `q`. */
  lemma QuotientOrder(a: real, p: real, b: real, q: real)
    requires p > 0.0 && q > 0.0 && a * q < b * p
    ensures a / p < b / q
  {
    MulPositive(p, q);
    var pq := p * q;
    DivUnique(a / p, (a * q) / pq, 1.0) by {
      assert (a / p) * pq == a * q;
    }
    assert a / p == (a * q) / pq;
    assert (b / q) * pq == b * p;
    assert b / q == (b * p) / pq;
    DivideOrder(a * q, b * p, pq);
  }

  /** A quotient `x / d` with `0 <= x <= d` lies in [0, 1], strictly
      inside when `x` is strictly inside. */
  lemma UnitQuotient(x: real, d: real)
    requires d > 0.0 && 0.0 <= x <= d
    ensures 0.0 <= x / d <= 1.0
    ensures 0.0 < x ==> 0.0 < x / d
    ensures x < d ==> x / d < 1.0
  {
    NonnegQuotient(x, d);
    assert d / d == 1.0;
    if x < d {
      DivideOrder(x, d, d);
    }
    if 0.0 < x {
      PositiveQuotient(x, d);
    }
  }

  /** Two quotients whose parts are the same multiples of a third pair
      are equal. */
  lemma RatioOfScaled(a: real, b: real, n: real, d: real, k: real)
    requires k != 0.0 && d != 0.0 && a * k == n && b * k == d
    ensures b != 0.0 && a / b == n / d
  {
    var q := a / b;
    assert q * b == a;
    MulBoth(q * b, a, k);
    assert q * d == n;
    DivUnique(q, n, d);
  }

  // Bias and pinch as the renderer applies them.

  /** The bias denominator `tmp (1 - x) + 1`. */
  function BiasDen(tmp: real, x: real): real {
    tmp * (1.0 - x) + 1.0
  }

  lemma BiasDenFacts(tmp: real, x: real)
    requires tmp > -1.0 && 0.0 <= x <= 1.0
    ensures BiasDen(tmp, x) > 0.0
    ensures BiasDen(tmp, x) - x == (tmp + 1.0) * (1.0 - x)
    ensures x <= BiasDen(tmp, x)
    ensures x < 1.0 ==> x < BiasDen(tmp, x)
  {
    if x == 1.0 {
      assert BiasDen(tmp, x) == 1.0;
    } else {
      var u := 1.0 - x;
      OnePlusProduct(tmp, u);
      assert BiasDen(tmp, x) == 1.0 + tmp * u;
      var k := tmp + 1.0;
      MulPositive(k, u);
      assert BiasDen(tmp, x) - x == k * u;
    }
  }

  /** The bias as `RenderLow` applies it; it keeps [0, 1] and (0, 1). */
  function Bias(c: BiasCoef, v: real): (r: real)
    requires BiasValid(c) && 0.0 <= v <= 1.0
    ensures 0.0 <= r <= 1.0
    ensures 0.0 < v < 1.0 ==> 0.0 < r < 1.0
  {
    var tmp := c.c0 - 1.0;
    assert c.c0 + c.c1 * v == BiasDen(tmp, v);
    BiasDenFacts(tmp, v);
    UnitQuotient(v, BiasDen(tmp, v));
    v / (c.c0 + c.c1 * v)
  }

  /** The upper pinch parts, times `k = 2 tmp + 1`, are
      `tmp (2v - 1) + v` and `1 + tmp (2v - 1)`. */
  lemma PinchUpperParts(c: PinchCoef, v: real, tmp: real, k: real, a: real, b: real, d: real)
    requires PinchValid(c) && tmp == c.c0 - 1.0 && k == 2.0 * tmp + 1.0
    requires a == c.c2 + v && b == c.c3 + c.c4 * v && d == BiasDen(tmp, 2.0 - 2.0 * v)
    ensures a * k == d - (1.0 - v) && b * k == d
  {
    assert c.c2 * k == -tmp;
    assert c.c3 * k == 1.0 - tmp;
    var c4 := c.c4;
    assert c4 * k == 2.0 * tmp;
    MulBoth(c4 * k, 2.0 * tmp, v);
  }

  /** The pinch as `RenderLow` applies it: one rational function below the
      middle, another above. */
  function Pinch(c: PinchCoef, v: real): real
    requires PinchValid(c) && 0.0 <= v <= 1.0
  {
    var tmp := c.c0 - 1.0;
    if v < 0.5 then
      assert c.c0 + c.c1 * v == BiasDen(tmp, 2.0 * v);
      BiasDenFacts(tmp, 2.0 * v);
      v / (c.c0 + c.c1 * v)
    else
      var k := 2.0 * tmp + 1.0;
      var a := c.c2 + v;
      var b := c.c3 + c.c4 * v;
      var d := BiasDen(tmp, 2.0 - 2.0 * v);
      BiasDenFacts(tmp, 2.0 - 2.0 * v);
      PinchUpperParts(c, v, tmp, k, a, b, d);
      RatioOfScaled(a, b, d - (1.0 - v), d, k);
      a / b
  }

  // ---------------------------------------------------------------------
  // Schlick's bias and gain, the reference definitions

  /** Schlick's bias function: `x / ((1/b - 2)(1 - x) + 1)`. */
  function SchlickBias(b: real, x: real): (r: real)
    requires 0.0 < b < 1.0 && 0.0 <= x <= 1.0
    ensures 0.0 <= r <= 1.0
  {
    OverBelowOne(b);
    var tmp := 1.0 / b - 2.0;
    BiasDenFacts(tmp, x);
    UnitQuotient(x, BiasDen(tmp, x));
    x / BiasDen(tmp, x)
  }

  /** Schlick's gain function: the bias of `1 - g` applied to each half,
      the upper half mirrored. */
  function SchlickGain(g: real, x: real): real
    requires 0.0 < g < 1.0 && 0.0 <= x <= 1.0
  {
    if x < 0.5 then SchlickBias(1.0 - g, 2.0 * x) / 2.0
    else 1.0 - SchlickBias(1.0 - g, 2.0 - 2.0 * x) / 2.0
  }

  /** The coefficient form of the bias is Schlick's bias at the level. */
  lemma BiasIsSchlick(level: real, v: real)
    requires 0.0 < level < 1.0 && 0.0 <= v <= 1.0
    ensures Bias(BiasFrom(level), v) == SchlickBias(level, v)
  {
    var c := BiasFrom(level);
    assert c.c0 + c.c1 * v == BiasDen(1.0 / level - 2.0, v);
  }

  lemma HalfQuotient(a2: real, a: real, d: real)
    requires d != 0.0 && a2 == 2.0 * a
    ensures (a2 / d) / 2.0 == a / d
  {
  }

  lemma OneMinusQuotient(n: real, h: real, d: real)
    requires d != 0.0 && n == d - h
    ensures n / d == 1.0 - h / d
  {
    var r := h / d;
    assert r * d == h;
    assert (1.0 - r) * d == n;
    DivUnique(1.0 - r, n, d);
  }

  /** Below the middle the pinch is half a bias of `2v`. */
  lemma PinchLowerHalf(c: PinchCoef, v: real)
    requires PinchValid(c) && 0.0 <= v < 0.5
    ensures var tmp := c.c0 - 1.0;
            BiasDen(tmp, 2.0 * v) > 0.0 &&
            Pinch(c, v) == (2.0 * v / BiasDen(tmp, 2.0 * v)) / 2.0
  {
    var tmp := c.c0 - 1.0;
    assert c.c0 + c.c1 * v == BiasDen(tmp, 2.0 * v);
    var x := 2.0 * v;
    var d := BiasDen(tmp, x);
    BiasDenFacts(tmp, x);
    HalfQuotient(x, v, d);
  }

  /** From the middle up the pinch is one minus half a bias of `2 - 2v`. */
  lemma PinchUpperHalf(c: PinchCoef, v: real)
    requires PinchValid(c) && 0.5 <= v <= 1.0
    ensures var tmp := c.c0 - 1.0;
            BiasDen(tmp, 2.0 - 2.0 * v) > 0.0 &&
            Pinch(c, v) == 1.0 - ((2.0 - 2.0 * v) / BiasDen(tmp, 2.0 - 2.0 * v)) / 2.0
  {
    var tmp := c.c0 - 1.0;
    var x := 2.0 - 2.0 * v;
    var d := BiasDen(tmp, x);
    var k := 2.0 * tmp + 1.0;
    var a := c.c2 + v;
    var b := c.c3 + c.c4 * v;
    var n := d - (1.0 - v);
    BiasDenFacts(tmp, x);
    PinchUpperParts(c, v, tmp, k, a, b, d);
    RatioOfScaled(a, b, n, d, k);
    assert Pinch(c, v) == n / d;
    var h := 1.0 - v;
    HalfQuotient(x, h, d);
    OneMinusQuotient(n, h, d);
  }

  /** The coefficient form of the pinch is Schlick's gain at the level. */
  lemma PinchIsSchlickGain(level: real, v: real)
    requires 0.0 < level < 1.0 && level != PINCH_SINGULAR && 0.0 <= v <= 1.0
    ensures Pinch(PinchFrom(level), v) == SchlickGain(level, v)
  {
    var c := PinchFrom(level);
    assert c.c0 - 1.0 == 1.0 / (1.0 - level) - 2.0;
    if v < 0.5 {
      PinchLowerHalf(c, v);
    } else {
      PinchUpperHalf(c, v);
    }
  }

  lemma PinchIsSchlickGainAll(level: real)
    requires 0.0 < level < 1.0 && level != PINCH_SINGULAR
    ensures forall v :: 0.0 <= v <= 1.0 ==> Pinch(PinchFrom(level), v) == SchlickGain(level, v)
  {
    forall v | 0.0 <= v <= 1.0
      ensures Pinch(PinchFrom(level), v) == SchlickGain(level, v)
    {
      PinchIsSchlickGain(level, v);
    }
  }

  lemma BiasIsSchlickAll(level: real)
    requires 0.0 < level < 1.0
    ensures forall v :: 0.0 <= v <= 1.0 ==> Bias(BiasFrom(level), v) == SchlickBias(level, v)
  {
    forall v | 0.0 <= v <= 1.0
      ensures Bias(BiasFrom(level), v) == SchlickBias(level, v)
    {
      BiasIsSchlick(level, v);
    }
  }

  /** Schlick's bias takes the middle to the level itself. */
  lemma SchlickBiasAtHalf(b: real)
    requires 0.0 < b < 1.0
    ensures SchlickBias(b, 0.5) == b
  {
    var q := 1.0 / b;
    var d := BiasDen(q - 2.0, 0.5);
    assert d == q * 0.5;
    assert q * b == 1.0;
    MulBoth(q * b, 1.0, 0.5);
    assert b * d == 0.5;
    DivUnique(b, 0.5, d);
  }

  /** Schlick's bias keeps [0, 1] and (0, 1), and is strictly increasing. */
  lemma SchlickBiasShape(b: real, x: real, y: real)
    requires 0.0 < b < 1.0 && 0.0 <= x < y <= 1.0
    ensures 0.0 <= SchlickBias(b, x) < SchlickBias(b, y) <= 1.0
    ensures 0.0 < x ==> 0.0 < SchlickBias(b, x)
    ensures y < 1.0 ==> SchlickBias(b, y) < 1.0
  {
    OverBelowOne(b);
    var tmp := 1.0 / b - 2.0;
    var k := tmp + 1.0;
    var dx := BiasDen(tmp, x);
    var dy := BiasDen(tmp, y);
    BiasDenFacts(tmp, x);
    BiasDenFacts(tmp, y);
    UnitQuotient(x, dx);
    UnitQuotient(y, dy);
    CrossOrder(k, x, y, dx, dy);
    QuotientOrder(x, dx, y, dy);
  }

  /** For `d(z) = k (1 - z) + z`, `x d(y) - y d(x) = k (x - y)`. */
  lemma CrossOrder(k: real, x: real, y: real, dx: real, dy: real)
    requires k > 0.0 && x < y
    requires dx == k * (1.0 - x) + x && dy == k * (1.0 - y) + y
    ensures x * dy < y * dx
  {
    assert x * dy - y * dx == (x - y) * k;
    MulPositive(y - x, k);
  }

  lemma SchlickGainAtHalf(g: real)
    requires 0.0 < g < 1.0
    ensures SchlickGain(g, 0.5) == 0.5
  {
    OverBelowOne(1.0 - g);
    assert BiasDen(1.0 / (1.0 - g) - 2.0, 1.0) == 1.0;
  }

  /** Schlick's gain is point-symmetric about (1/2, 1/2). */
  lemma SchlickGainSymmetric(g: real, x: real)
    requires 0.0 < g < 1.0 && 0.0 <= x <= 1.0
    ensures SchlickGain(g, 1.0 - x) == 1.0 - SchlickGain(g, x)
  {
    if x == 0.5 {
      SchlickGainAtHalf(g);
    } else if x < 0.5 {
      assert 2.0 - 2.0 * (1.0 - x) == 2.0 * x;
    } else {
      assert 2.0 * (1.0 - x) == 2.0 - 2.0 * x;
    }
  }

  /** Schlick's gain is strictly increasing. */
  lemma SchlickGainMonotone(g: real, x: real, y: real)
    requires 0.0 < g < 1.0 && 0.0 <= x < y <= 1.0
    ensures SchlickGain(g, x) < SchlickGain(g, y)
  {
    if y < 0.5 {
      SchlickBiasShape(1.0 - g, 2.0 * x, 2.0 * y);
    } else if 0.5 <= x {
      SchlickBiasShape(1.0 - g, 2.0 - 2.0 * y, 2.0 - 2.0 * x);
    } else {
      SchlickBiasShape(1.0 - g, 2.0 * x, 1.0);
      if y > 0.5 {
        SchlickBiasShape(1.0 - g, 2.0 - 2.0 * y, 1.0);
      }
    }
  }

  /** Schlick's gain keeps (0, 1). */
  lemma SchlickGainRange(g: real, x: real)
    requires 0.0 < g < 1.0 && 0.0 < x < 1.0
    ensures 0.0 < SchlickGain(g, x) < 1.0
  {
    if x < 0.5 {
      SchlickBiasShape(1.0 - g, 2.0 * x, 1.0);
    } else if x == 0.5 {
      SchlickGainAtHalf(g);
    } else {
      SchlickBiasShape(1.0 - g, 2.0 - 2.0 * x, 1.0);
    }
  }

  // ---------------------------------------------------------------------
  // The tone pipeline

  datatype ToneCoef = ToneCoef(gain: real, bias: BiasCoef, pinch: PinchCoef, average: real)

  /** The levels a set of tone settings stands for. */
  datatype ToneLevels = ToneLevels(bias: real, pinch: real)

  function LevelsOf(bias: real, pinch: real): (l: ToneLevels)
    ensures 0.0 < l.bias < 1.0 && 0.0 < l.pinch < 1.0
  {
    ToneLevels(Level(Saturate(bias)), Level(Saturate(pinch)))
  }

  /** The gain, bias and pinch part of `PrecalcRenderStuff`: the bias
      stage is Schlick's bias at the bias level, the pinch stage Schlick's
      gain at the pinch level, and the average is where a value of 0.5
      ends after both. */
  function PrecalcTone(gain: real, bias: real, pinch: real, pow: (real, real) -> real): (t: ToneCoef)
    requires LevelsOf(bias, pinch).pinch != PINCH_SINGULAR
    ensures BiasValid(t.bias) && PinchValid(t.pinch)
    ensures t.gain == pow(6.0, Saturate(gain))
    ensures t.bias == BiasFrom(LevelsOf(bias, pinch).bias)
    ensures t.pinch == PinchFrom(LevelsOf(bias, pinch).pinch)
    ensures t.average == SchlickGain(LevelsOf(bias, pinch).pinch, LevelsOf(bias, pinch).bias)
  {
    var levels := LevelsOf(bias, pinch);
    var b := BiasFrom(levels.bias);
    var p := PinchFrom(levels.pinch);
    var half := Bias(b, 0.5);
    BiasIsSchlick(levels.bias, 0.5);
    PinchIsSchlickGain(levels.pinch, half);
    SchlickBiasAtHalf(levels.bias);
    ToneCoef(pow(6.0, Saturate(gain)), b, p, Pinch(p, half))
  }

  predicate ToneValid(t: ToneCoef) {
    BiasValid(t.bias) && PinchValid(t.pinch)
  }

  /** `value * gain + 0.5`: the basis value gained and centred. */
  function Gained(t: ToneCoef, v: real): real {
    v * t.gain + 0.5
  }

  /** A gained value clamped to [EPSILON, 1 - EPSILON]; bias and pinch
      apply only when no clamp did. */
  function ShapeAt(t: ToneCoef, x: real): real
    requires ToneValid(t)
  {
    if x > 1.0 - EPSILON then 1.0 - EPSILON
    else if x < EPSILON then EPSILON
    else Pinch(t.pinch, Bias(t.bias, x))
  }

  /** The tone part of `RenderLow` for one basis value. */
  function Shape(t: ToneCoef, v: real): real
    requires ToneValid(t)
  {
    ShapeAt(t, Gained(t, v))
  }

  /** The same curve with Schlick's functions at the user's levels in
      place of the coefficients. */
  function SchlickShapeAt(levels: ToneLevels, x: real): real
    requires 0.0 < levels.bias < 1.0 && 0.0 < levels.pinch < 1.0
  {
    if x > 1.0 - EPSILON then 1.0 - EPSILON
    else if x < EPSILON then EPSILON
    else SchlickGain(levels.pinch, SchlickBias(levels.bias, x))
  }

  /** The precomputed coefficients shape every gained value as the
      reference curve does. */
  lemma ShapeIsSchlick(gain: real, bias: real, pinch: real, pow: (real, real) -> real, x: real)
    requires LevelsOf(bias, pinch).pinch != PINCH_SINGULAR
    ensures ShapeAt(PrecalcTone(gain, bias, pinch, pow), x) == SchlickShapeAt(LevelsOf(bias, pinch), x)
  {
    var t := PrecalcTone(gain, bias, pinch, pow);
    var l := LevelsOf(bias, pinch);
    if EPSILON <= x <= 1.0 - EPSILON {
      var y := Bias(t.bias, x);
      BiasIsSchlick(l.bias, x);
      PinchIsSchlickGain(l.pinch, y);
    }
  }

  /** Whatever the gained value, the shaped one lies strictly inside
      (0, 1). */
  lemma SchlickShapeRange(levels: ToneLevels, x: real)
    requires 0.0 < levels.bias < 1.0 && 0.0 < levels.pinch < 1.0
    ensures 0.0 < SchlickShapeAt(levels, x) < 1.0
  {
    if EPSILON <= x <= 1.0 - EPSILON {
      SchlickBiasShape(levels.bias, 0.0, x);
      SchlickBiasShape(levels.bias, x, 1.0);
      SchlickGainRange(levels.pinch, SchlickBias(levels.bias, x));
    }
  }

  lemma ShapeRange(gain: real, bias: real, pinch: real, pow: (real, real) -> real, v: real)
    requires LevelsOf(bias, pinch).pinch != PINCH_SINGULAR
    ensures 0.0 < Shape(PrecalcTone(gain, bias, pinch, pow), v) < 1.0
  {
    var t := PrecalcTone(gain, bias, pinch, pow);
    ShapeIsSchlick(gain, bias, pinch, pow, Gained(t, v));
    SchlickShapeRange(LevelsOf(bias, pinch), Gained(t, v));
  }

  /** Between the clamps the reference curve is strictly increasing. */
  lemma SchlickShapeMonotone(levels: ToneLevels, x: real, y: real)
    requires 0.0 < levels.bias < 1.0 && 0.0 < levels.pinch < 1.0
    requires EPSILON <= x < y <= 1.0 - EPSILON
    ensures SchlickShapeAt(levels, x) < SchlickShapeAt(levels, y)
  {
    SchlickBiasShape(levels.bias, x, y);
    SchlickGainMonotone(levels.pinch, SchlickBias(levels.bias, x), SchlickBias(levels.bias, y));
  }

  /** For a positive gain, two basis values whose gained values both
      stay between the clamps keep their order. */
  lemma ShapeMonotoneInside(gain: real, bias: real, pinch: real, pow: (real, real) -> real, v: real, w: real)
    requires LevelsOf(bias, pinch).pinch != PINCH_SINGULAR
    requires pow(6.0, Saturate(gain)) > 0.0 && v < w
    requires EPSILON <= Gained(PrecalcTone(gain, bias, pinch, pow), v)
    requires Gained(PrecalcTone(gain, bias, pinch, pow), w) <= 1.0 - EPSILON
    ensures Shape(PrecalcTone(gain, bias, pinch, pow), v) < Shape(PrecalcTone(gain, bias, pinch, pow), w)
  {
    var t := PrecalcTone(gain, bias, pinch, pow);
    var x := Gained(t, v);
    var y := Gained(t, w);
    GainedOrder(t, t.gain, v, w);
    ShapeIsSchlick(gain, bias, pinch, pow, x);
    ShapeIsSchlick(gain, bias, pinch, pow, y);
    SchlickShapeMonotone(LevelsOf(bias, pinch), x, y);
  }

  lemma GainedOrder(t: ToneCoef, g: real, v: real, w: real)
    requires t.gain == g && g > 0.0 && v < w
    ensures Gained(t, v) == v * g + 0.5 && Gained(t, w) == w * g + 0.5
    ensures Gained(t, v) < Gained(t, w)
  {
    MulPositive(w - v, g);
    assert Gained(t, w) - Gained(t, v) == (w - v) * g;
  }

  /** With gain, bias and pinch at 0 the tone is the identity up to the
      clamps, and the average is the middle. */
  lemma ShapeNeutral(pow: (real, real) -> real, v: real)
    requires pow(6.0, 0.0) == 1.0
    ensures Shape(PrecalcTone(0.0, 0.0, 0.0, pow), v) == Clamp(v + 0.5, EPSILON, 1.0 - EPSILON)
  {
    var t := PrecalcTone(0.0, 0.0, 0.0, pow);
    GainedByOne(t, v);
    NeutralShapeAt(0.0, pow, v + 0.5);
  }

  /** With bias and pinch at 0 a gained value is only clamped. */
  lemma NeutralShapeAt(gain: real, pow: (real, real) -> real, x: real)
    ensures ShapeAt(PrecalcTone(gain, 0.0, 0.0, pow), x) == Clamp(x, EPSILON, 1.0 - EPSILON)
  {
    NeutralLevels();
    ShapeIsSchlick(gain, 0.0, 0.0, pow, x);
    SchlickShapeNeutral(x);
  }

  /** With bias and pinch at 0 the average is the middle. */
  lemma AverageNeutral(gain: real, pow: (real, real) -> real)
    ensures PrecalcTone(gain, 0.0, 0.0, pow).average == 0.5
  {
    NeutralLevels();
    SchlickGainAtHalf(0.5);
  }

  lemma NeutralLevels()
    ensures LevelsOf(0.0, 0.0) == ToneLevels(0.5, 0.5)
  {
    assert Saturate(0.0) == 0.0 && Level(0.0) == 0.5;
  }

  lemma GainedByOne(t: ToneCoef, v: real)
    requires t.gain == 1.0
    ensures Gained(t, v) == v + 0.5
  {
  }

  /** At the middle levels the reference curve only clamps. */
  lemma SchlickShapeNeutral(x: real)
    ensures SchlickShapeAt(ToneLevels(0.5, 0.5), x) == Clamp(x, EPSILON, 1.0 - EPSILON)
  {
    if EPSILON <= x <= 1.0 - EPSILON {
      SchlickNeutral(x);
    }
  }

  /** Schlick's bias and gain at the middle level are the identity. */
  lemma SchlickNeutral(x: real)
    requires 0.0 <= x <= 1.0
    ensures SchlickBias(0.5, x) == x
    ensures SchlickGain(0.5, x) == x
  {
    assert 1.0 / 0.5 - 2.0 == 0.0;
    assert BiasDen(0.0, x) == 1.0;
    if x < 0.5 {
      assert BiasDen(0.0, 2.0 * x) == 1.0;
    } else {
      assert BiasDen(0.0, 2.0 - 2.0 * x) == 1.0;
    }
  }

  /** The clamps skip bias and pinch, so a strong bias makes the curve
      jump back at the lower clamp: a value just below it renders brighter
      than one just above it. */
  lemma ShapeJumpsAtClamp(pow: (real, real) -> real)
    requires pow(6.0, 0.0) == 1.0
    ensures var t := PrecalcTone(0.0, -1.0, 0.0, pow);
            Shape(t, 0.5 / 1024.0 - 0.5) > Shape(t, 2.0 / 1024.0 - 0.5)
  {
    var t := PrecalcTone(0.0, -1.0, 0.0, pow);
    var l := LevelsOf(-1.0, 0.0);
    assert l == ToneLevels(0.001, 0.5) by {
      assert Saturate(-1.0) == -1.0 && Level(-1.0) == 0.001;
      assert Saturate(0.0) == 0.0 && Level(0.0) == 0.5;
    }
    GainedByOne(t, 0.5 / 1024.0 - 0.5);
    var x := 2.0 / 1024.0;
    GainedByOne(t, x - 0.5);
    ShapeIsSchlick(0.0, -1.0, 0.0, pow, x);
    var y := SchlickBias(0.001, x);
    assert y == x / BiasDen(998.0, x) by {
      assert 1.0 / 0.001 - 2.0 == 998.0;
    }
    assert y < EPSILON by {
      var d := BiasDen(998.0, x);
      assert d > 0.0 && x < EPSILON * d;
      DivideOrder(x, EPSILON * d, d);
      assert (EPSILON * d) / d == EPSILON;
    }
    SchlickNeutral(y);
  }

  /** A basis value of 0 renders to the precomputed average. */
  lemma AverageIsShapeOfZero(gain: real, bias: real, pinch: real, pow: (real, real) -> real)
    requires LevelsOf(bias, pinch).pinch != PINCH_SINGULAR
    ensures Shape(PrecalcTone(gain, bias, pinch, pow), 0.0) == PrecalcTone(gain, bias, pinch, pow).average
  {
    var t := PrecalcTone(gain, bias, pinch, pow);
    var l := LevelsOf(bias, pinch);
    assert Gained(t, 0.0) == 0.5;
    ShapeIsSchlick(gain, bias, pinch, pow, 0.5);
    SchlickBiasAtHalf(l.bias);
  }

  // ---------------------------------------------------------------------
  // Output functions

  const FUNC_RAMP: int := 0
  const FUNC_TRIANGLE: int := 1
  const FUNC_SINE: int := 2
  const FUNC_HALF_SINE: int := 3

  /** `FN_MODE(FUNCTION, REVERSE) = (FUNCTION << 1) + REVERSE`. */
  function FnMode(fn: int, reverse: int): int
    requires 0 <= fn
  {
    fn * 2 + reverse
  }

  /** Different functions or directions give different modes, and each
      mode names its function and direction. */
  lemma FnModeInjective(f: int, r: int, f': int, r': int)
    requires 0 <= f && 0 <= f' && 0 <= r <= 1 && 0 <= r' <= 1
    ensures FnMode(f, r) == FnMode(f', r') <==> f == f' && r == r'
    ensures FnMode(f, r) / 2 == f && FnMode(f, r) % 2 == r
  {
  }

  /** `fmod(value * frequency, 1.0)`. */
  function RampWave(v: real, frequency: real): real {
    FracPart(v * frequency)
  }

  function TriangleWave(v: real, frequency: real): real {
    var y := FracPart(v * frequency) * 2.0;
    if y > 1.0 then 2.0 - y else y
  }

  /** The `function_mode` switch of `RenderLow`; an unknown mode ends the
      render with -1, `None` here. */
  function Wave(mode: int, v: real, frequency: real, cos: real -> real): (r: Option<real>)
    ensures r.None? <==> !(0 <= mode < 8)
  {
    if mode == FnMode(FUNC_RAMP, 0) then Some(RampWave(v, frequency))
    else if mode == FnMode(FUNC_TRIANGLE, 0) then Some(TriangleWave(v, frequency))
    else if mode == FnMode(FUNC_SINE, 0) then Some((1.0 - cos(v * frequency)) * 0.5)
    else if mode == FnMode(FUNC_HALF_SINE, 0) then Some(Abs(cos(v * frequency)))
    else if mode == FnMode(FUNC_RAMP, 1) then Some(1.0 - RampWave(v, frequency))
    else if mode == FnMode(FUNC_TRIANGLE, 1) then Some(1.0 - TriangleWave(v, frequency))
    else if mode == FnMode(FUNC_SINE, 1) then Some((1.0 + cos(v * frequency)) * 0.5)
    else if mode == FnMode(FUNC_HALF_SINE, 1) then Some(1.0 - Abs(cos(v * frequency)))
    else None
  }

  /** The reversed functions are the forward ones turned upside down. */
  lemma WaveReverse(f: int, v: real, frequency: real, cos: real -> real)
    requires 0 <= f < 4
    ensures Wave(FnMode(f, 1), v, frequency, cos).Some?
    ensures Wave(FnMode(f, 1), v, frequency, cos).value == 1.0 - Wave(FnMode(f, 0), v, frequency, cos).value
  {
    assert FnMode(f, 1) == 2 * f + 1 && FnMode(f, 0) == 2 * f;
    if f == FUNC_HALF_SINE {
      assert Wave(2 * f + 1, v, frequency, cos).value == 1.0 - Abs(cos(v * frequency));
    }
  }

  /** `value += shift; if (value > 1.0) value -= 1.0;` */
  function AddShift(value: real, shift: real): (r: real)
    ensures r == value + shift || r == value + shift - 1.0
    ensures 0.0 <= value <= 1.0 && 0.0 <= shift <= 1.0 ==> 0.0 <= r <= 1.0
  {
    var y := value + shift;
    if y > 1.0 then y - 1.0 else y
  }

  /** The value `RenderLow` writes or looks up for a shaped value. */
  function Output(mode: int, v: real, frequency: real, shift: real, cos: real -> real): (r: Option<real>)
    ensures r.Some? <==> 0 <= mode < 8
  {
    match Wave(mode, v, frequency, cos)
    case None => None
    case Some(y) => Some(AddShift(y, shift))
  }

  /** The output-function part of `PrecalcRenderStuff`. */
  datatype OutputCoef = OutputCoef(frequency: real, shift: real, mode: int)

  function PrecalcOutput(fn: int, frequency: real, shift: real, reverse: int): (o: OutputCoef)
    requires 0 <= fn && 0 <= reverse <= 1
    ensures o.mode / 2 == fn && o.mode % 2 == reverse
    ensures 0.0 <= shift ==> 0.0 <= o.shift < 1.0
    ensures fn == FUNC_SINE || fn == FUNC_HALF_SINE ==> o.frequency == frequency * PI * 2.0
    ensures fn != FUNC_SINE && fn != FUNC_HALF_SINE ==> o.frequency == frequency
  {
    var f := if fn == FUNC_SINE || fn == FUNC_HALF_SINE then frequency * PI * 2.0 else frequency;
    OutputCoef(f, FracPart(shift / 100.0), FnMode(fn, reverse))
  }

  /** The cosine stays in [-1, 1]. */
  ghost predicate CosFacts(cos: real -> real) {
    forall x :: -1.0 <= cos(x) <= 1.0
  }

  lemma FracPartInUnit(x: real)
    requires 0.0 <= x
    ensures 0.0 <= FracPart(x) < 1.0
  {
  }

  /** For a shaped value, a non-negative frequency and a shift in [0, 1),
      every known mode yields a value in [0, 1]. */
  lemma OutputInUnit(mode: int, v: real, frequency: real, shift: real, cos: real -> real)
    requires 0 <= mode < 8 && CosFacts(cos)
    requires 0.0 < v < 1.0 && 0.0 <= frequency && 0.0 <= shift < 1.0
    ensures Output(mode, v, frequency, shift, cos).Some?
    ensures 0.0 <= Output(mode, v, frequency, shift, cos).value <= 1.0
  {
    MulNonneg(v, frequency);
    FracPartInUnit(v * frequency);
    var c := cos(v * frequency);
    assert -1.0 <= c <= 1.0;
    var y := Wave(mode, v, frequency, cos).value;
    assert 0.0 <= y <= 1.0;
  }

  /** `GRADIENT_SAMPLES`: entries in the colour gradient. */
  const GRADIENT_SAMPLES: int := 512

  /** `CAST_TO_INT((GRADIENT_SAMPLES - 1) * value)`: the gradient entry a
      value selects. */
  function GradientEntry(value: real): int {
    Trunc((GRADIENT_SAMPLES - 1) as real * value)
  }

  /** Every value in [0, 1] selects an existing entry, the last one only
      at 1. */
  lemma GradientEntryInRange(value: real)
    requires 0.0 <= value <= 1.0
    ensures 0 <= GradientEntry(value) < GRADIENT_SAMPLES
    ensures GradientEntry(value) == GRADIENT_SAMPLES - 1 <==> value == 1.0
  {
    var x := (GRADIENT_SAMPLES - 1) as real * value;
    assert 0.0 <= x <= 511.0;
    if value < 1.0 {
      assert x < 511.0;
    }
  }

  // ---------------------------------------------------------------------
  // Caustics

  /** The caustics slider as a factor in [-1, 1]: the setting mapped to
      [0, 1], bent by a gain of `WARP_GAIN`, and stretched back. */
  function CausticFactor(caustics: real): (c: real)
    ensures caustics <= -100.0 ==> c == 1.0
    ensures caustics >= 100.0 ==> c == -1.0
  {
    var t0 := (caustics + 100.0) / 200.0;
    var t1 := if t0 > 1.0 then 1.0 else t0;
    var t := if t1 < 0.0 then 0.0 else t1;
    var tmp2 := (1.0 / WARP_GAIN - 2.0) * (1.0 - 2.0 * t);
    var g := if t < 0.5 then t / (tmp2 + 1.0) else (tmp2 - t) / (tmp2 - 1.0);
    -(g - 0.5) * 2.0
  }

  /** The bent value at a position `t` in [0, 1]. */
  function CausticGain(t: real): real
    requires 0.0 <= t <= 1.0
  {
    if t < 0.5 then t / (0.25 + 1.5 * t) else (0.75 - 0.5 * t) / (1.75 - 1.5 * t)
  }

  lemma CausticFactorIsGain(caustics: real)
    ensures var t := Clamp((caustics + 100.0) / 200.0, 0.0, 1.0);
            CausticFactor(caustics) == -(CausticGain(t) - 0.5) * 2.0
  {
    var t := Clamp((caustics + 100.0) / 200.0, 0.0, 1.0);
    var tmp2 := (1.0 / WARP_GAIN - 2.0) * (1.0 - 2.0 * t);
    assert 1.0 / WARP_GAIN - 2.0 == -0.75;
    assert tmp2 + 1.0 == 0.25 + 1.5 * t;
    assert tmp2 - 1.0 == -(1.75 - 1.5 * t);
    if t >= 0.5 {
      assert tmp2 - t == -(0.75 - 0.5 * t);
      NegateBoth(0.75 - 0.5 * t, 1.75 - 1.5 * t);
    }
  }

  lemma NegateBoth(a: real, b: real)
    requires b != 0.0
    ensures (-a) / (-b) == a / b
  {
  }

  /** The bent value runs from 0 to 1 without turning back, and is
      point-symmetric about the middle. */
  lemma CausticGainShape(t: real, u: real)
    requires 0.0 <= t <= u <= 1.0
    ensures 0.0 <= CausticGain(t) <= CausticGain(u) <= 1.0
  {
    if t < 0.5 {
      PositiveDenominatorStep(t);
    }
    if u < 0.5 {
      PositiveDenominatorStep(u);
      QuotientMono(t, u);
    } else {
      UpperStep(u);
      if t >= 0.5 {
        UpperStep(t);
        UpperMono(t, u);
      } else {
        LowerBelowHalf(t);
        UpperAboveHalf(u);
      }
    }
  }

  lemma PositiveDenominatorStep(t: real)
    requires 0.0 <= t < 0.5
    ensures 0.0 <= t / (0.25 + 1.5 * t) < 0.5
  {
    NonnegQuotient(t, 0.25 + 1.5 * t);
    assert t < 0.5 * (0.25 + 1.5 * t);
    DivideOrder(t, 0.5 * (0.25 + 1.5 * t), 0.25 + 1.5 * t);
  }

  lemma LowerBelowHalf(t: real)
    requires 0.0 <= t < 0.5
    ensures CausticGain(t) < 0.5
  {
    PositiveDenominatorStep(t);
  }

  lemma UpperStep(t: real)
    requires 0.5 <= t <= 1.0
    ensures 0.5 <= (0.75 - 0.5 * t) / (1.75 - 1.5 * t) <= 1.0
  {
    var d := 1.75 - 1.5 * t;
    assert d > 0.0;
    assert 0.5 * d <= 0.75 - 0.5 * t <= d;
    assert (0.5 * d) / d == 0.5;
    assert d / d == 1.0;
    if 0.5 * d < 0.75 - 0.5 * t {
      DivideOrder(0.5 * d, 0.75 - 0.5 * t, d);
    }
    if 0.75 - 0.5 * t < d {
      DivideOrder(0.75 - 0.5 * t, d, d);
    }
  }

  lemma UpperAboveHalf(u: real)
    requires 0.5 <= u <= 1.0
    ensures CausticGain(u) >= 0.5
  {
    UpperStep(u);
  }

  lemma QuotientMono(t: real, u: real)
    requires 0.0 <= t <= u < 0.5
    ensures t / (0.25 + 1.5 * t) <= u / (0.25 + 1.5 * u)
  {
    if t < u {
      assert t * (0.25 + 1.5 * u) - u * (0.25 + 1.5 * t) == 0.25 * (t - u);
      QuotientOrder(t, 0.25 + 1.5 * t, u, 0.25 + 1.5 * u);
    }
  }

  lemma UpperMono(t: real, u: real)
    requires 0.5 <= t <= u <= 1.0
    ensures (0.75 - 0.5 * t) / (1.75 - 1.5 * t) <= (0.75 - 0.5 * u) / (1.75 - 1.5 * u)
  {
    if t < u {
      assert (0.75 - 0.5 * t) * (1.75 - 1.5 * u) - (0.75 - 0.5 * u) * (1.75 - 1.5 * t) == 0.25 * (t - u);
      QuotientOrder(0.75 - 0.5 * t, 1.75 - 1.5 * t, 0.75 - 0.5 * u, 1.75 - 1.5 * u);
    }
  }

  lemma CausticGainSymmetric(t: real)
    requires 0.0 <= t <= 1.0
    ensures CausticGain(1.0 - t) == 1.0 - CausticGain(t)
  {
    if t == 0.5 {
      assert CausticGain(0.5) == 0.5;
    } else if t < 0.5 {
      var d := 0.25 + 1.5 * t;
      assert 1.75 - 1.5 * (1.0 - t) == d;
      assert 0.75 - 0.5 * (1.0 - t) == d - t;
      assert (d - t) / d == 1.0 - t / d;
    } else {
      var d := 1.75 - 1.5 * t;
      assert 0.25 + 1.5 * (1.0 - t) == d;
      assert (1.0 - t) / d == 1.0 - (0.75 - 0.5 * t) / d;
    }
  }

  /** The caustics factor lies in [-1, 1], is 0 for a setting of 0,
      falls as the setting rises, and is odd. */
  lemma CausticFactorShape(w: real, w': real)
    requires w <= w'
    ensures -1.0 <= CausticFactor(w') <= CausticFactor(w) <= 1.0
    ensures CausticFactor(0.0) == 0.0
    ensures CausticFactor(-w) == -CausticFactor(w)
  {
    var t := Clamp((w + 100.0) / 200.0, 0.0, 1.0);
    var t' := Clamp((w' + 100.0) / 200.0, 0.0, 1.0);
    CausticFactorIsGain(w);
    CausticFactorIsGain(w');
    CausticGainShape(t, t');
    CausticGainShape(0.0, t);
    CausticGainShape(t', 1.0);
    CausticFactorIsGain(0.0);
    assert CausticGain(0.5) == 0.5;
    CausticFactorIsGain(-w);
    assert Clamp((-w + 100.0) / 200.0, 0.0, 1.0) == 1.0 - t;
    CausticGainSymmetric(t);
  }

  /** `caustic_coef = tmp * (size / warp_size)`: the factor scaled so the
      caustics do not change with the feature size. */
  function CausticCoef(caustics: real, size: real, warpSize: real): real
    requires warpSize != 0.0
  {
    CausticFactor(caustics) * (size / warpSize)
  }

  // ---------------------------------------------------------------------
  // The foreground-to-background gradient

  datatype Rgba = Rgba(r: real, g: real, b: real, a: real)

  /** The colour difference as `PrecalcRenderStuff` takes it: the green
      and the blue channel subtract the background's blue and green. */
  function FgBgDifferenceAsWritten(fg: Rgba, bg: Rgba): Rgba {
    Rgba(fg.r - bg.r, fg.g - bg.b, fg.b - bg.g, fg.a - bg.a)
  }

  /** The channel-by-channel difference the ramp needs. */
  function FgBgDifference(fg: Rgba, bg: Rgba): Rgba {
    Rgba(fg.r - bg.r, fg.g - bg.g, fg.b - bg.b, fg.a - bg.a)
  }

  /** Entry `k` of the colour ramp: sample `i = 4k` at
      `s = i / (GRADIENT_SAMPLES * 4 - 4)`, opaque. */
  function RampEntry(diff: Rgba, bg: Rgba, k: int): Rgba {
    var s := (4 * k) as real / (GRADIENT_SAMPLES * 4 - 4) as real;
    Rgba(diff.r * s + bg.r, diff.g * s + bg.g, diff.b * s + bg.b, 1.0)
  }

  /** `0.30 r + 0.59 g + 0.11 b`. */
  function Luminance(c: Rgba): real {
    0.30 * c.r + 0.59 * c.g + 0.11 * c.b
  }

  /** Entry `k` of the grey ramp: sample `i = 2k` at
      `s = i / (GRADIENT_SAMPLES * 2 - 2)`. */
  function GreyEntry(diff: Rgba, bg: Rgba, k: int): real {
    var s := (2 * k) as real / (GRADIENT_SAMPLES * 2 - 2) as real;
    Luminance(diff) * s + Luminance(bg)
  }

  /** As written, a black foreground over a green background ends the
      ramp green, in colour and in grey. */
  lemma RampEndAsWritten()
    ensures var fg := Rgba(0.0, 0.0, 0.0, 1.0);
            var bg := Rgba(0.0, 1.0, 0.0, 1.0);
            RampEntry(FgBgDifferenceAsWritten(fg, bg), bg, GRADIENT_SAMPLES - 1).g == 1.0 != fg.g &&
            GreyEntry(FgBgDifferenceAsWritten(fg, bg), bg, GRADIENT_SAMPLES - 1) == 0.48 != Luminance(fg)
  {
    var fg := Rgba(0.0, 0.0, 0.0, 1.0);
    var bg := Rgba(0.0, 1.0, 0.0, 1.0);
    var diff := FgBgDifferenceAsWritten(fg, bg);
    assert diff == Rgba(0.0, 0.0, -1.0, 0.0);
    assert (4 * 511) as real / 2044.0 == 1.0;
    assert (2 * 511) as real / 1022.0 == 1.0;
    assert Luminance(diff) == -0.11;
    assert Luminance(bg) == 0.59;
  }

  /** With the channel-by-channel difference the ramp starts at the
      background and ends at the foreground, in colour and in grey, and
      every channel moves in a straight line between them. */
  lemma RampEnds(fg: Rgba, bg: Rgba, k: int)
    requires 0 <= k < GRADIENT_SAMPLES
    ensures var e := RampEntry(FgBgDifference(fg, bg), bg, 0);
            e.r == bg.r && e.g == bg.g && e.b == bg.b && e.a == 1.0
    ensures var e := RampEntry(FgBgDifference(fg, bg), bg, GRADIENT_SAMPLES - 1);
            e.r == fg.r && e.g == fg.g && e.b == fg.b
    ensures GreyEntry(FgBgDifference(fg, bg), bg, 0) == Luminance(bg)
    ensures GreyEntry(FgBgDifference(fg, bg), bg, GRADIENT_SAMPLES - 1) == Luminance(fg)
    ensures var s := k as real / (GRADIENT_SAMPLES - 1) as real;
            RampEntry(FgBgDifference(fg, bg), bg, k).g == bg.g + (fg.g - bg.g) * s &&
            RampEntry(FgBgDifference(fg, bg), bg, k).b == bg.b + (fg.b - bg.b) * s
  {
    assert (4 * 511) as real / 2044.0 == 1.0;
    assert (2 * 511) as real / 1022.0 == 1.0;
    assert (4 * k) as real / 2044.0 == k as real / 511.0;
  }

  /** Which gradient the colour stage ends with. */
  datatype GradientKind = Sampled | FgBgRamp | NoGradient

  const COL_FG_BG: int := 0
  const COL_GRADIENT: int := 1

  /** A named gradient when it can be sampled; the foreground-to-
      background ramp for that colour source or when sampling fails; no
      gradient for the channel and warp sources. */
  function GradientChoice(colorSrc: int, sampled: bool): (k: GradientKind)
    ensures k == Sampled <==> colorSrc == COL_GRADIENT && sampled
    ensures k == FgBgRamp <==> colorSrc == COL_FG_BG || (colorSrc == COL_GRADIENT && !sampled)
  {
    var failed := colorSrc == COL_GRADIENT && !sampled;
    if colorSrc == COL_GRADIENT && sampled then Sampled
    else if failed || colorSrc == COL_FG_BG then FgBgRamp
    else NoGradient
  }

  /** The grey conversion of a sampled gradient, in place: sample `k`
      (four values from `4k`) becomes luminance and alpha at `2k`. The
      writes run behind the reads, so no sample is read after it was
      overwritten. */
  method GreyInPlace(g: seq<real>) returns (out: seq<real>)
    requires |g| % 4 == 0
    ensures |out| == |g|
    ensures forall k :: 0 <= k < |g| / 4 ==>
              out[2 * k] == Luminance(Rgba(g[4 * k], g[4 * k + 1], g[4 * k + 2], 0.0)) &&
              out[2 * k + 1] == g[4 * k + 3]
    ensures forall m :: |g| / 2 <= m < |g| ==> out[m] == g[m]
  {
    out := g;
    var i := 0;
    var j := 0;
    while j < |g|
      invariant j == 2 * i && j % 4 == 0 && 0 <= j <= |g|
      invariant |out| == |g|
      invariant forall k :: 0 <= k < i / 2 ==>
                  out[2 * k] == Luminance(Rgba(g[4 * k], g[4 * k + 1], g[4 * k + 2], 0.0)) &&
                  out[2 * k + 1] == g[4 * k + 3]
      invariant forall m :: i <= m < |g| ==> out[m] == g[m]
    {
      out := out[i := out[j] * 0.30 + out[j + 1] * 0.59 + out[j + 2] * 0.11];
      out := out[i + 1 := out[j + 3]];
      i := i + 2;
      j := j + 4;
    }
  }

  // ---------------------------------------------------------------------
  // Dirty flags and the render buffer

  /** The flags of the dirty mask; `FlagBit` gives each one's bit. */
  datatype Flag = FeatureSize | RegionParams | Mapping | OutputFunction | GainPinchBias
                | BufferType | Color | Basis | Warp

  function FlagBit(f: Flag): int {
    match f
    case FeatureSize => 1
    case RegionParams => 2
    case Mapping => 4
    case OutputFunction => 8
    case GainPinchBias => 16
    case BufferType => 32
    case Color => 64
    case Basis => 128
    case Warp => 256
  }

  const ALL_FLAGS: set<Flag> := {FeatureSize, RegionParams, Mapping, OutputFunction, GainPinchBias,
                                 BufferType, Color, Basis, Warp}

  /** `DIRTY_ALL`: the nine flag bits together. */
  const DIRTY_ALL: int := 511

  function BitOf(d: set<Flag>, f: Flag): int {
    if f in d then FlagBit(f) else 0
  }

  /** The integer mask a set of flags stands for. */
  function Mask(d: set<Flag>): (m: int)
    ensures 0 <= m <= DIRTY_ALL
  {
    BitOf(d, FeatureSize) + BitOf(d, RegionParams) + BitOf(d, Mapping) + BitOf(d, OutputFunction) +
    BitOf(d, GainPinchBias) + BitOf(d, BufferType) + BitOf(d, Color) + BitOf(d, Basis) + BitOf(d, Warp)
  }

  /** A mask is clear exactly when no flag is set, and is `DIRTY_ALL`
      exactly when every flag is. */
  lemma MaskExtremes(d: set<Flag>)
    ensures Mask(d) == 0 <==> d == {}
    ensures Mask(d) == DIRTY_ALL <==> d == ALL_FLAGS
  {
    if d != {} {
      var f :| f in d;
      assert BitOf(d, f) > 0;
    }
    forall f | f !in d
      ensures Mask(d) < DIRTY_ALL
    {
      MaskBelow(d, f);
    }
    forall f: Flag
      ensures f in ALL_FLAGS
    {
      match f
      case FeatureSize =>
      case RegionParams =>
      case Mapping =>
      case OutputFunction =>
      case GainPinchBias =>
      case BufferType =>
      case Color =>
      case Basis =>
      case Warp =>
    }
    if d == ALL_FLAGS {
      assert Mask(d) == DIRTY_ALL;
    }
  }

  lemma MaskBelow(d: set<Flag>, f: Flag)
    requires f !in d
    ensures Mask(d) <= DIRTY_ALL - FlagBit(f)
  {
    match f
    case FeatureSize =>
    case RegionParams =>
    case Mapping =>
    case OutputFunction =>
    case GainPinchBias =>
    case BufferType =>
    case Color =>
    case Basis =>
    case Warp =>
  }

  /** The stages of `PrecalcRenderStuff`. */
  datatype Stage = PixelSize | RegionOrigin | Polar | OutputCurve | ToneCurve | Caustics | Gradient

  const ALL_STAGES: set<Stage> := {PixelSize, RegionOrigin, Polar, OutputCurve, ToneCurve, Caustics, Gradient}

  /** The flags each stage tests before it runs. */
  function Guard(s: Stage): set<Flag> {
    match s
    case PixelSize => {FeatureSize}
    case RegionOrigin => {FeatureSize, RegionParams, BufferType}
    case Polar => {Mapping, BufferType, RegionParams}
    case OutputCurve => {OutputFunction}
    case ToneCurve => {GainPinchBias}
    case Caustics => {Basis, FeatureSize, Warp}
    case Gradient => {Color, BufferType}
  }

  /** A flag each stage tests. */
  function GuardWitness(s: Stage): (f: Flag)
    ensures f in Guard(s)
  {
    match s
    case PixelSize => FeatureSize
    case RegionOrigin => FeatureSize
    case Polar => Mapping
    case OutputCurve => OutputFunction
    case ToneCurve => GainPinchBias
    case Caustics => Basis
    case Gradient => Color
  }

  /** The stages a dirty mask makes `PrecalcRenderStuff` redo. */
  function Recomputed(d: set<Flag>): set<Stage> {
    set s | s in ALL_STAGES && Guard(s) * d != {}
  }

  /** `SetRenderStateDirty`: the flags are ORed in. */
  function SetDirty(d: set<Flag>, bits: set<Flag>): (r: set<Flag>)
    ensures d <= r && bits <= r
    ensures forall f :: f in r ==> f in d || f in bits
  {
    d + bits
  }

  /** The stages still pending after a setter are the old ones plus those
      the new flags ask for. */
  lemma RecomputedUnion(d: set<Flag>, bits: set<Flag>)
    ensures Recomputed(SetDirty(d, bits)) == Recomputed(d) + Recomputed(bits)
  {
    forall s | s in ALL_STAGES
      ensures Guard(s) * (d + bits) != {} <==> Guard(s) * d != {} || Guard(s) * bits != {}
    {
      assert Guard(s) * (d + bits) == Guard(s) * d + Guard(s) * bits;
    }
  }

  /** Marking a flag twice is marking it once. */
  lemma SetDirtyIdempotent(d: set<Flag>, bits: set<Flag>)
    ensures SetDirty(SetDirty(d, bits), bits) == SetDirty(d, bits)
  {
  }

  /** Every stage runs with every flag set, none with a clean mask. */
  lemma RecomputedExtremes()
    ensures Recomputed(ALL_FLAGS) == ALL_STAGES
    ensures Recomputed({}) == {}
  {
    forall s | s in ALL_STAGES
      ensures Guard(s) * ALL_FLAGS != {}
    {
      var f := GuardWitness(s);
      assert f in Guard(s) * ALL_FLAGS;
    }
  }

  /** A single flag makes exactly the stages that test it run. */
  lemma RecomputedSingle(f: Flag)
    ensures forall s :: s in Recomputed({f}) <==> s in ALL_STAGES && f in Guard(s)
  {
    forall s | s in ALL_STAGES
      ensures Guard(s) * {f} != {} <==> f in Guard(s)
    {
      assert f in Guard(s) ==> f in Guard(s) * {f};
    }
  }

  /** The buffer type and the region each invalidate the origin and the
      polar table; the buffer type also the gradient. */
  lemma RecomputedSetters()
    ensures Recomputed({BufferType}) == {RegionOrigin, Polar, Gradient}
    ensures Recomputed({RegionParams}) == {RegionOrigin, Polar}
  {
    RecomputedSingle(BufferType);
    RecomputedSingle(RegionParams);
  }

  /** The tone flag redoes only the tone curve; the feature size also the
      pixel size, the origin and the caustics. */
  lemma RecomputedTone()
    ensures Recomputed({GainPinchBias}) == {ToneCurve}
    ensures Recomputed({FeatureSize}) == {PixelSize, RegionOrigin, Caustics}
  {
    RecomputedSingle(GainPinchBias);
    RecomputedSingle(FeatureSize);
  }

  /** The render bookkeeping these operations touch. */
  datatype RenderState = RenderState(dirty: set<Flag>, writeMode: int, pixelStride: int)

  const MODE_RAW: int := 0
  const MODE_COLOR: int := 1
  const MODE_GRAYSCALE: int := 2

  /** `InitRenderData` and `AssociateRenderToState` mark everything dirty. */
  function MarkAllDirty(s: RenderState): (r: RenderState)
    ensures Recomputed(r.dirty) == ALL_STAGES
    ensures r.writeMode == s.writeMode && r.pixelStride == s.pixelStride
  {
    RecomputedExtremes();
    s.(dirty := ALL_FLAGS)
  }

  /** `SetRenderBufferMode`: raw buffers keep the caller's stride, colour
      and grey buffers use 4 and 2 values per pixel, any other mode leaves
      the stride; the buffer type is marked dirty in every case. */
  function SetRenderBufferMode(s: RenderState, mode: int, stride: int): (r: RenderState)
    ensures r.writeMode == mode
    ensures mode == MODE_RAW ==> r.pixelStride == stride
    ensures mode == MODE_COLOR ==> r.pixelStride == 4
    ensures mode == MODE_GRAYSCALE ==> r.pixelStride == 2
    ensures !(0 <= mode <= 2) ==> r.pixelStride == s.pixelStride
    ensures Recomputed(r.dirty) == Recomputed(s.dirty) + {RegionOrigin, Polar, Gradient}
  {
    var st := if mode == MODE_RAW then stride
              else if mode == MODE_COLOR then 4
              else if mode == MODE_GRAYSCALE then 2
              else s.pixelStride;
    RecomputedSetters();
    RecomputedUnion(s.dirty, {BufferType});
    RenderState(SetDirty(s.dirty, {BufferType}), mode, st)
  }

  /** `SetRenderRegion` marks the region parameters dirty. */
  function SetRenderRegion(s: RenderState): (r: RenderState)
    ensures Recomputed(r.dirty) == Recomputed(s.dirty) + {RegionOrigin, Polar}
    ensures r.writeMode == s.writeMode && r.pixelStride == s.pixelStride
  {
    RecomputedSetters();
    RecomputedUnion(s.dirty, {RegionParams});
    s.(dirty := SetDirty(s.dirty, {RegionParams}))
  }

  /** `PrecalcRenderStuff` ends with a clean mask: nothing is redone until
      a setter marks it again. */
  function FinishPrecalc(s: RenderState): (r: RenderState)
    ensures Recomputed(r.dirty) == {}
    ensures r.writeMode == s.writeMode && r.pixelStride == s.pixelStride
  {
    RecomputedExtremes();
    s.(dirty := {})
  }
}
