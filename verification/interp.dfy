/** The two interpolation macros every lattice basis shares: `Lerp`, the
    straight-line blend, and `Curve`, the degree-7 fade applied to the
    fractional coordinates before blending.

    `Curve(t) = -20t^7 + 70t^6 - 84t^5 + 35t^4` is the upper tail
    `P(Binomial(7, t) >= 4)` of a binomial distribution; its range,
    monotonicity and symmetry follow from the recursive description of such
    tails, `Tail` below. */
module Interp {

  /** `Lerp(T, A, B)`: `A` at `T = 0`, `B` at `T = 1`. */
  function Lerp(t: real, a: real, b: real): (r: real)
    ensures t == 0.0 ==> r == a
    ensures t == 1.0 ==> r == b
  {
    (b - a) * t + a
  }

  lemma MulNonneg(p: real, q: real)
    requires 0.0 <= p && 0.0 <= q
    ensures 0.0 <= p * q
  {
  }

  /** For a weight in [0,1] the blend stays between its two end values. */
  lemma LerpBetween(t: real, a: real, b: real)
    requires 0.0 <= t <= 1.0
    ensures a <= b ==> a <= Lerp(t, a, b) <= b
    ensures b <= a ==> b <= Lerp(t, a, b) <= a
  {
    if a <= b {
      MulNonneg(b - a, t);
      MulNonneg(b - a, 1.0 - t);
    } else {
      MulNonneg(a - b, t);
      MulNonneg(a - b, 1.0 - t);
    }
  }

  /** Raising either end value never lowers the blend. */
  lemma LerpMono(t: real, a: real, b: real, a': real, b': real)
    requires 0.0 <= t <= 1.0 && a <= a' && b <= b'
    ensures Lerp(t, a, b) <= Lerp(t, a', b')
  {
    MulNonneg(t, b' - b);
    MulNonneg(1.0 - t, a' - a);
  }

  /** Moving the weight towards the larger end never lowers the blend. */
  lemma LerpWeightMono(t: real, u: real, a: real, b: real)
    requires t <= u && a <= b
    ensures Lerp(t, a, b) <= Lerp(u, a, b)
  {
    MulNonneg(u - t, b - a);
  }

  /** Blending the complements with the complementary weight. */
  lemma LerpReflect(t: real, a: real, b: real)
    ensures Lerp(1.0 - t, 1.0 - a, 1.0 - b) == 1.0 - Lerp(t, b, a)
  {
  }

  /** `Curve(A)`, evaluated as the source does: a Horner polynomial times
      `(A*A)*(A*A)`. */
  function Curve(a: real): (r: real)
    ensures a == 0.0 ==> r == 0.0
    ensures a == 1.0 ==> r == 1.0
  {
    var tmp := a * a;
    ((((-20.0 * a) + 70.0) * a - 84.0) * a + 35.0) * tmp * tmp
  }

  /** `P(Binomial(n, t) >= k)`, by conditioning on the last trial: with
      probability `t` it succeeded and `k - 1` more successes are needed
      among the other `n - 1`. */
  function Tail(n: nat, k: nat, t: real): real
    decreases n
  {
    if k == 0 then 1.0
    else if n < k then 0.0
    else Lerp(t, Tail(n - 1, k, t), Tail(n - 1, k - 1, t))
  }

  lemma TailStep(n: nat, k: nat, t: real)
    requires 0 < k <= n
    ensures Tail(n, k, t) == Lerp(t, Tail(n - 1, k, t), Tail(n - 1, k - 1, t))
  {
  }

  lemma {:induction false} TailBounded(n: nat, k: nat, t: real)
    requires 0.0 <= t <= 1.0
    ensures 0.0 <= Tail(n, k, t) <= 1.0
    decreases n
  {
    if 0 < k <= n {
      TailBounded(n - 1, k - 1, t);
      TailBounded(n - 1, k, t);
      TailStep(n, k, t);
      LerpMono(t, 0.0, 0.0, Tail(n - 1, k, t), Tail(n - 1, k - 1, t));
      LerpMono(t, Tail(n - 1, k, t), Tail(n - 1, k - 1, t), 1.0, 1.0);
    }
  }

  /** Asking for more successes is never more likely. */
  lemma {:induction false} TailAntitone(n: nat, k: nat, t: real)
    requires 0.0 <= t <= 1.0
    ensures Tail(n, k + 1, t) <= Tail(n, k, t)
    decreases n
  {
    TailBounded(n, k + 1, t);
    TailBounded(n, k, t);
    if 0 < k && k + 1 <= n {
      TailAntitone(n - 1, k - 1, t);
      TailAntitone(n - 1, k, t);
      TailStep(n, k, t);
      var k1 := k + 1;
      TailStep(n, k1, t);
      assert k1 - 1 == k;
      LerpMono(t, Tail(n - 1, k1, t), Tail(n - 1, k, t), Tail(n - 1, k, t), Tail(n - 1, k - 1, t));
    }
  }

  /** A larger success probability never makes the tail less likely. */
  lemma {:induction false} TailMonotone(n: nat, k: nat, t: real, u: real)
    requires 0.0 <= t <= u <= 1.0
    ensures Tail(n, k, t) <= Tail(n, k, u)
    decreases n
  {
    if 0 < k <= n {
      TailMonotone(n - 1, k - 1, t, u);
      TailMonotone(n - 1, k, t, u);
      TailAntitone(n - 1, k - 1, u);
      TailStep(n, k, t);
      TailStep(n, k, u);
      LerpMono(t, Tail(n - 1, k, t), Tail(n - 1, k - 1, t), Tail(n - 1, k, u), Tail(n - 1, k - 1, u));
      LerpWeightMono(t, u, Tail(n - 1, k, u), Tail(n - 1, k - 1, u));
    }
  }

  /** Swapping success and failure: "at least k of n" under `1 - t` is
      "fewer than n + 1 - k" under `t`. */
  lemma {:induction false} TailReflect(n: nat, k: nat, t: real)
    requires k <= n + 1
    ensures Tail(n, k, 1.0 - t) == 1.0 - Tail(n, n + 1 - k, t)
    decreases n
  {
    if 0 < k <= n {
      TailReflect(n - 1, k - 1, t);
      TailReflect(n - 1, k, t);
      var m := n + 1 - k;
      assert (n - 1) + 1 - (k - 1) == m;
      assert (n - 1) + 1 - k == m - 1;
      TailStep(n, k, 1.0 - t);
      TailStep(n, m, t);
      LerpReflect(t, Tail(n - 1, m - 1, t), Tail(n - 1, m, t));
    }
  }

  // The closed forms of the tails `Curve` is built from, one node of the
  // recursion at a time.

  lemma TailNode1x1(t: real)
    ensures Tail(1, 1, t) == t
  {
    TailStep(1, 1, t);
  }

  lemma TailNode2x2(t: real)
    ensures Tail(2, 2, t) == t * t
  {
    TailNode1x1(t);
    TailStep(2, 2, t);
  }

  lemma TailNode3x3(t: real)
    ensures Tail(3, 3, t) == t * t * t
  {
    TailNode2x2(t);
    TailStep(3, 3, t);
  }

  lemma TailNode2x1(t: real)
    ensures Tail(2, 1, t) == (-t + 2.0) * t
  {
    TailNode1x1(t);
    TailStep(2, 1, t);
  }

  lemma TailNode3x2(t: real)
    ensures Tail(3, 2, t) == (-2.0 * t + 3.0) * t * t
  {
    TailNode2x2(t);
    TailNode2x1(t);
    TailStep(3, 2, t);
    LerpNode3x2(t, Tail(2, 2, t), Tail(2, 1, t));
  }

  lemma LerpNode3x2(t: real, a: real, b: real)
    requires a == t * t
    requires b == (-t + 2.0) * t
    ensures Lerp(t, a, b) == (-2.0 * t + 3.0) * t * t
  {
  }

  lemma TailNode4x3(t: real)
    ensures Tail(4, 3, t) == (-3.0 * t + 4.0) * t * t * t
  {
    TailNode3x3(t);
    TailNode3x2(t);
    TailStep(4, 3, t);
    LerpNode4x3(t, Tail(3, 3, t), Tail(3, 2, t));
  }

  lemma LerpNode4x3(t: real, a: real, b: real)
    requires a == t * t * t
    requires b == (-2.0 * t + 3.0) * t * t
    ensures Lerp(t, a, b) == (-3.0 * t + 4.0) * t * t * t
  {
  }

  lemma TailNode3x1(t: real)
    ensures Tail(3, 1, t) == ((t - 3.0) * t + 3.0) * t
  {
    TailNode2x1(t);
    TailStep(3, 1, t);
  }

  lemma TailNode4x2(t: real)
    ensures Tail(4, 2, t) == ((3.0 * t - 8.0) * t + 6.0) * t * t
  {
    TailNode3x2(t);
    TailNode3x1(t);
    TailStep(4, 2, t);
    LerpNode4x2(t, Tail(3, 2, t), Tail(3, 1, t));
  }

  lemma LerpNode4x2(t: real, a: real, b: real)
    requires a == (-2.0 * t + 3.0) * t * t
    requires b == ((t - 3.0) * t + 3.0) * t
    ensures Lerp(t, a, b) == ((3.0 * t - 8.0) * t + 6.0) * t * t
  {
  }

  lemma TailNode5x3(t: real)
    ensures Tail(5, 3, t) == ((6.0 * t - 15.0) * t + 10.0) * t * t * t
  {
    TailNode4x3(t);
    TailNode4x2(t);
    TailStep(5, 3, t);
    LerpNode5x3(t, Tail(4, 3, t), Tail(4, 2, t));
  }

  lemma LerpNode5x3(t: real, a: real, b: real)
    requires a == (-3.0 * t + 4.0) * t * t * t
    requires b == ((3.0 * t - 8.0) * t + 6.0) * t * t
    ensures Lerp(t, a, b) == ((6.0 * t - 15.0) * t + 10.0) * t * t * t
  {
  }

  lemma TailNode4x1(t: real)
    ensures Tail(4, 1, t) == (((-t + 4.0) * t - 6.0) * t + 4.0) * t
  {
    TailNode3x1(t);
    TailStep(4, 1, t);
  }

  lemma TailNode5x2(t: real)
    ensures Tail(5, 2, t) == (((-4.0 * t + 15.0) * t - 20.0) * t + 10.0) * t * t
  {
    TailNode4x2(t);
    TailNode4x1(t);
    TailStep(5, 2, t);
    LerpNode5x2(t, Tail(4, 2, t), Tail(4, 1, t));
  }

  lemma LerpNode5x2(t: real, a: real, b: real)
    requires a == ((3.0 * t - 8.0) * t + 6.0) * t * t
    requires b == (((-t + 4.0) * t - 6.0) * t + 4.0) * t
    ensures Lerp(t, a, b) == (((-4.0 * t + 15.0) * t - 20.0) * t + 10.0) * t * t
  {
  }

  lemma TailNode6x3(t: real)
    ensures Tail(6, 3, t) == (((-10.0 * t + 36.0) * t - 45.0) * t + 20.0) * t * t * t
  {
    TailNode5x3(t);
    TailNode5x2(t);
    TailStep(6, 3, t);
    LerpNode6x3(t, Tail(5, 3, t), Tail(5, 2, t));
  }

  lemma LerpNode6x3(t: real, a: real, b: real)
    requires a == ((6.0 * t - 15.0) * t + 10.0) * t * t * t
    requires b == (((-4.0 * t + 15.0) * t - 20.0) * t + 10.0) * t * t
    ensures Lerp(t, a, b) == (((-10.0 * t + 36.0) * t - 45.0) * t + 20.0) * t * t * t
  {
  }

  lemma TailNode4x4(t: real)
    ensures Tail(4, 4, t) == t * t * t * t
  {
    TailNode3x3(t);
    TailStep(4, 4, t);
  }

  lemma TailNode5x4(t: real)
    ensures Tail(5, 4, t) == (-4.0 * t + 5.0) * t * t * t * t
  {
    TailNode4x4(t);
    TailNode4x3(t);
    TailStep(5, 4, t);
    LerpNode5x4(t, Tail(4, 4, t), Tail(4, 3, t));
  }

  lemma LerpNode5x4(t: real, a: real, b: real)
    requires a == t * t * t * t
    requires b == (-3.0 * t + 4.0) * t * t * t
    ensures Lerp(t, a, b) == (-4.0 * t + 5.0) * t * t * t * t
  {
  }

  lemma TailNode6x4(t: real)
    ensures Tail(6, 4, t) == ((10.0 * t - 24.0) * t + 15.0) * t * t * t * t
  {
    TailNode5x4(t);
    TailNode5x3(t);
    TailStep(6, 4, t);
    LerpNode6x4(t, Tail(5, 4, t), Tail(5, 3, t));
  }

  lemma LerpNode6x4(t: real, a: real, b: real)
    requires a == (-4.0 * t + 5.0) * t * t * t * t
    requires b == ((6.0 * t - 15.0) * t + 10.0) * t * t * t
    ensures Lerp(t, a, b) == ((10.0 * t - 24.0) * t + 15.0) * t * t * t * t
  {
  }


  /** The Horner form of `Curve` is the tail `P(Binomial(7, t) >= 4)`. */
  lemma CurveIsTail(t: real)
    ensures Curve(t) == Tail(7, 4, t)
  {
    TailNode6x3(t);
    TailNode6x4(t);
    TailStep(7, 4, t);
    CurveFromLevel6(t, Tail(6, 4, t), Tail(6, 3, t));
  }

  lemma CurveFromLevel6(t: real, t64: real, t63: real)
    requires t63 == (((-10.0 * t + 36.0) * t - 45.0) * t + 20.0) * t * t * t
    requires t64 == ((10.0 * t - 24.0) * t + 15.0) * t * t * t * t
    ensures Curve(t) == Lerp(t, t64, t63)
  {
  }

  /** On [0,1] the fade stays in [0,1]. */
  lemma CurveRange(t: real)
    requires 0.0 <= t <= 1.0
    ensures 0.0 <= Curve(t) <= 1.0
  {
    CurveIsTail(t);
    TailBounded(7, 4, t);
  }

  /** The fade runs from 0 to 1 without ever turning back. */
  lemma CurveMonotone(t: real, u: real)
    requires 0.0 <= t <= u <= 1.0
    ensures Curve(t) <= Curve(u)
  {
    CurveIsTail(t);
    CurveIsTail(u);
    TailMonotone(7, 4, t, u);
  }

  /** The fade is point-symmetric about (1/2, 1/2). */
  lemma CurveSymmetric(t: real)
    ensures Curve(1.0 - t) == 1.0 - Curve(t)
  {
    calc {
      Curve(1.0 - t);
    == { CurveIsTail(1.0 - t); }
      Tail(7, 4, 1.0 - t);
    == { TailReflect(7, 4, t); }
      1.0 - Tail(7, 4, t);
    == { CurveIsTail(t); }
      1.0 - Curve(t);
    }
  }

  lemma CurveFixedPoints()
    ensures Curve(0.0) == 0.0 && Curve(1.0) == 1.0 && Curve(0.5) == 0.5
  {
    CurveSymmetric(0.5);
  }
}
