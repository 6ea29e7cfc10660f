/** Lattice ("gradient") noise in three, four and five dimensions.

    A point is split into its integer cell and the offset inside it. Each of
    the `2^D` cell corners hashes its integer coordinates into a gradient
    selector, the selector picks a sum of `D - 1` signed offset components,
    and the `2^D` values are blended one axis at a time with the weights
    `Curve(offset)`. */
module Lattice {
  import opened Common
  import opened RandomEngine
  import opened Interp

  /** `floor(x)`, its `(int)` conversion, and `x - floor(x)`. */
  function FloorSplit(x: real): (r: (int, real))
    ensures r.0 as real <= x < r.0 as real + 1.0
    ensures r.1 == x - r.0 as real
    ensures 0.0 <= r.1 < 1.0
  {
    (x.Floor, x - x.Floor as real)
  }

  /** Bit `k` of corner index `i`: `(i & (1 << k)) >> k`, the corner's step
      along axis `k`. */
  function Bit(i: nat, k: nat): (b: nat)
    ensures b <= 1
  {
    (i / Pow2(k)) % 2
  }

  /** `sum g[k] * v[k]` for a row of gradient signs `g`. */
  function Dot(g: seq<int>, v: seq<real>): real {
    if |g| == 0 || |v| == 0 then 0.0 else g[0] as real * v[0] + Dot(g[1..], v[1..])
  }

  /** `sum |g[k]|`: the number of offset components a gradient row adds. */
  function Terms(g: seq<int>): nat {
    if |g| == 0 then 0 else (if g[0] == 0 then 0 else 1) + Terms(g[1..])
  }

  predicate UnitRow(g: seq<int>) {
    forall k :: 0 <= k < |g| ==> -1 <= g[k] <= 1
  }

  /** The `Hash3(...) & 15` switch of `LNoise3D`, one row of signs per case. */
  const GRAD3: seq<seq<int>> := [
    [1, 1, 0], [1, -1, 0], [-1, 1, 0], [-1, -1, 0],
    [1, 0, 1], [1, 0, -1], [-1, 0, 1], [-1, 0, -1],
    [0, 1, 1], [0, 1, -1], [0, -1, 1], [0, -1, -1],
    [1, 1, 0], [-1, 1, 0], [0, -1, 1], [0, -1, -1]]

  /** The `Hash4(...) & 31` switch of `LNoise4D`. */
  const GRAD4: seq<seq<int>> := [
    [1, 1, 1, 0], [1, -1, 1, 0], [-1, 1, 1, 0], [-1, -1, 1, 0],
    [1, 1, -1, 0], [1, -1, -1, 0], [-1, 1, -1, 0], [-1, -1, -1, 0],
    [1, 1, 0, 1], [1, -1, 0, 1], [-1, 1, 0, 1], [-1, -1, 0, 1],
    [1, 1, 0, -1], [1, -1, 0, -1], [-1, 1, 0, -1], [-1, -1, 0, -1],
    [1, 0, 1, 1], [1, 0, -1, 1], [-1, 0, 1, 1], [-1, 0, -1, 1],
    [1, 0, 1, -1], [1, 0, -1, -1], [-1, 0, 1, -1], [-1, 0, -1, -1],
    [0, 1, 1, 1], [0, 1, -1, 1], [0, -1, 1, 1], [0, -1, -1, 1],
    [0, 1, 1, -1], [0, 1, -1, -1], [0, -1, 1, -1], [0, -1, -1, -1]]

  /** The four axes `LNoise5D` sums for each value of `(h >> 4) % 5`, in the
      order of the sign bits 0..3 (axes x, y, z, s, t are 0..4). */
  const AXES5: seq<seq<nat>> := [
    [0, 1, 2, 4], [0, 1, 3, 4], [0, 3, 2, 4], [3, 1, 2, 4], [0, 1, 2, 3]]

  predicate RowShape(g: seq<int>, d: nat, n: nat) {
    |g| == d && UnitRow(g) && Terms(g) == n
  }

  /** Every 3D selector adds two offset components with unit signs; the
      last four rows repeat earlier ones. */
  lemma Grad3Shape()
    ensures |GRAD3| == 16
    ensures forall r :: 0 <= r < 16 ==> RowShape(GRAD3[r], 3, 2)
    ensures GRAD3[12] == GRAD3[0] && GRAD3[13] == GRAD3[2]
    ensures GRAD3[14] == GRAD3[10] && GRAD3[15] == GRAD3[11]
  {
    forall r | 0 <= r < 16
      ensures RowShape(GRAD3[r], 3, 2)
    {
      var g := GRAD3[r];
      assert |g| == 3 && UnitRow(g);
      assert (g[2] == 0 && g[0] != 0 && g[1] != 0)
          || (g[1] == 0 && g[0] != 0 && g[2] != 0)
          || (g[0] == 0 && g[1] != 0 && g[2] != 0);
      assert g[1..][1..][1..] == [];
    }
  }

  function NonZero(a: int): nat {
    if a == 0 then 0 else 1
  }

  lemma Terms4(g: seq<int>)
    requires |g| == 4
    ensures Terms(g) == NonZero(g[0]) + NonZero(g[1]) + NonZero(g[2]) + NonZero(g[3])
  {
    var g1 := g[1..];
    var g2 := g1[1..];
    var g3 := g2[1..];
    assert g3[1..] == [];
    assert Terms(g3) == NonZero(g[3]);
    assert Terms(g2) == NonZero(g[2]) + Terms(g3);
    assert Terms(g1) == NonZero(g[1]) + Terms(g2);
  }

  /** Every 4D selector adds three offset components with unit signs. */
  lemma Grad4Shape()
    ensures |GRAD4| == 32
    ensures forall r :: 0 <= r < 32 ==> RowShape(GRAD4[r], 4, 3)
  {
    Grad4ShapeLow();
    Grad4ShapeHigh();
    assert |GRAD4| == 32;
  }

  lemma Grad4ShapeLow()
    ensures forall r :: 0 <= r < 16 ==> RowShape(GRAD4[r], 4, 3)
  {
    forall r | 0 <= r < 16
      ensures RowShape(GRAD4[r], 4, 3)
    {
      Terms4(GRAD4[r]);
    }
  }

  lemma Grad4ShapeHigh()
    ensures forall r :: 16 <= r < 32 ==> RowShape(GRAD4[r], 4, 3)
  {
    forall r | 16 <= r < 32
      ensures RowShape(GRAD4[r], 4, 3)
    {
      Terms4(GRAD4[r]);
    }
  }

  /** `((h & (1 << m)) ? v : -v)`. */
  function Signed(h: int, m: nat, v: real): real
    requires 0 <= h
  {
    if Bit(h, m) == 1 then v else -v
  }

  /** The `(h >> 4) % 5` switch of `LNoise5D`. */
  function Gradient5D(h: int, v: seq<real>): real
    requires 0 <= h && |v| == 5
  {
    var axes := AXES5[(h / 16) % 5];
    Signed(h, 0, v[axes[0]]) + Signed(h, 1, v[axes[1]])
      + Signed(h, 2, v[axes[2]]) + Signed(h, 3, v[axes[3]])
  }

  /** The "dot product" of a corner: selector `h`, offsets `v` from the corner. */
  function Gradient(h: int, v: seq<real>): real
    requires 0 <= h && 3 <= |v| <= 5
  {
    if |v| == 3 then Dot(GRAD3[h % 16], v)
    else if |v| == 4 then Dot(GRAD4[h % 32], v)
    else Gradient5D(h, v)
  }

  lemma {:induction false} DotBound(g: seq<int>, v: seq<real>)
    requires |g| == |v| && UnitRow(g)
    requires forall k :: 0 <= k < |v| ==> -1.0 <= v[k] <= 1.0
    ensures Abs(Dot(g, v)) <= Terms(g) as real
    decreases |g|
  {
    if |g| > 0 {
      DotBound(g[1..], v[1..]);
    }
  }

  lemma {:induction false} DotZero(g: seq<int>, v: seq<real>)
    requires |g| == |v|
    requires forall k :: 0 <= k < |v| ==> v[k] == 0.0
    ensures Dot(g, v) == 0.0
    decreases |g|
  {
    if |g| > 0 {
      DotZero(g[1..], v[1..]);
    }
  }

  /** A corner's contribution never exceeds `D - 1` in magnitude while the
      offsets stay within one cell, and vanishes at the corner itself. */
  lemma GradientBound(h: int, v: seq<real>)
    requires 0 <= h && 3 <= |v| <= 5
    requires forall k :: 0 <= k < |v| ==> -1.0 <= v[k] <= 1.0
    ensures Abs(Gradient(h, v)) <= (|v| - 1) as real
    ensures (forall k :: 0 <= k < |v| ==> v[k] == 0.0) ==> Gradient(h, v) == 0.0
  {
    Grad3Shape();
    Grad4Shape();
    if |v| == 3 {
      DotBound(GRAD3[h % 16], v);
      if forall k :: 0 <= k < |v| ==> v[k] == 0.0 {
        DotZero(GRAD3[h % 16], v);
      }
    } else if |v| == 4 {
      DotBound(GRAD4[h % 32], v);
      if forall k :: 0 <= k < |v| ==> v[k] == 0.0 {
        DotZero(GRAD4[h % 32], v);
      }
    } else {
      var axes := AXES5[(h / 16) % 5];
      assert forall m :: 0 <= m < 4 ==> axes[m] < 5;
    }
  }

  /** One blending pass along the lowest remaining axis: corner pairs
      `(2i, 2i+1)` differ only in that axis. */
  function Halve(vals: seq<real>, w: real): (r: seq<real>)
    requires |vals| % 2 == 0
    ensures |r| == |vals| / 2
    ensures forall i :: 0 <= i < |r| ==> r[i] == Lerp(w, vals[2 * i], vals[2 * i + 1])
  {
    seq(|vals| / 2, i requires 0 <= i < |vals| / 2 => Lerp(w, vals[2 * i], vals[2 * i + 1]))
  }

  /** The `D`-linear blend of `2^D` corner values, axis 0 first. */
  function Reduce(vals: seq<real>, ws: seq<real>): real
    requires |vals| == Pow2(|ws|)
    decreases |ws|
  {
    if |ws| == 0 then vals[0]
    else Reduce(Halve(vals, ws[0]), ws[1..])
  }

  predicate UnitWeights(ws: seq<real>) {
    forall k :: 0 <= k < |ws| ==> 0.0 <= ws[k] <= 1.0
  }

  /** Blending with weights in [0,1] never leaves the corner values' bound. */
  lemma {:induction false} ReduceBounded(vals: seq<real>, ws: seq<real>, b: real)
    requires |vals| == Pow2(|ws|) && UnitWeights(ws)
    requires forall i :: 0 <= i < |vals| ==> Abs(vals[i]) <= b
    ensures Abs(Reduce(vals, ws)) <= b
    decreases |ws|
  {
    if |ws| > 0 {
      var h := Halve(vals, ws[0]);
      forall i | 0 <= i < |h|
        ensures Abs(h[i]) <= b
      {
        LerpBetween(ws[0], vals[2 * i], vals[2 * i + 1]);
      }
      ReduceBounded(h, ws[1..], b);
    }
  }

  /** With every weight 0 the blend is the value of corner 0. */
  lemma {:induction false} ReduceAtOrigin(vals: seq<real>, ws: seq<real>)
    requires |vals| == Pow2(|ws|)
    requires forall k :: 0 <= k < |ws| ==> ws[k] == 0.0
    ensures Reduce(vals, ws) == vals[0]
    decreases |ws|
  {
    if |ws| > 0 {
      ReduceAtOrigin(Halve(vals, ws[0]), ws[1..]);
    }
  }

  /** The integer coordinates of corner `i` of `cell`. */
  function CornerCell(cell: seq<int>, i: nat): (r: seq<int>)
    ensures |r| == |cell|
  {
    seq(|cell|, k requires 0 <= k < |cell| => cell[k] + Bit(i, k))
  }

  /** The offsets of a point from corner `i`: `xf - x_idx`, ... */
  function CornerOffset(frac: seq<real>, i: nat): (r: seq<real>)
    ensures |r| == |frac|
  {
    seq(|frac|, k requires 0 <= k < |frac| => frac[k] - Bit(i, k) as real)
  }

  /** The `2^D` corner values `dp[i]`. */
  function Corners(cell: seq<int>, frac: seq<real>, t: seq<int>): (dp: seq<real>)
    requires ValidTable(t) && |cell| == |frac| && 3 <= |cell| <= 5
    ensures |dp| == Pow2(|cell|)
  {
    seq(Pow2(|cell|), i requires 0 <= i < Pow2(|cell|) =>
      HashChainInTable(t, CornerCell(cell, i));
      Gradient(HashChain(t, CornerCell(cell, i)), CornerOffset(frac, i)))
  }

  /** Corner `i` of `Corners`, one entry at a time. */
  lemma CornerAt(cell: seq<int>, frac: seq<real>, t: seq<int>, i: nat)
    requires ValidTable(t) && |cell| == |frac| && 3 <= |cell| <= 5 && i < Pow2(|cell|)
    ensures 0 <= HashChain(t, CornerCell(cell, i))
    ensures Corners(cell, frac, t)[i] == Gradient(HashChain(t, CornerCell(cell, i)), CornerOffset(frac, i))
  {
    HashChainInTable(t, CornerCell(cell, i));
  }

  lemma HashChainInTable(t: seq<int>, args: seq<int>)
    requires ValidTable(t) && |args| >= 1
    ensures 0 <= HashChain(t, args) < 65536
  {
  }

  lemma Hash3InTable(t: seq<int>, a: int, b: int, c: int)
    requires ValidTable(t)
    ensures 0 <= Hash3(t, a, b, c) < 65536
  {
  }

  lemma Hash4InTable(t: seq<int>, a: int, b: int, c: int, d: int)
    requires ValidTable(t)
    ensures 0 <= Hash4(t, a, b, c, d) < 65536
  {
  }

  lemma Hash5InTable(t: seq<int>, a: int, b: int, c: int, d: int, e: int)
    requires ValidTable(t)
    ensures 0 <= Hash5(t, a, b, c, d, e) < 65536
  {
  }

  function Cell(p: seq<real>): (r: seq<int>)
    ensures |r| == |p|
  {
    seq(|p|, k requires 0 <= k < |p| => FloorSplit(p[k]).0)
  }

  function Frac(p: seq<real>): (r: seq<real>)
    ensures |r| == |p|
    ensures forall k :: 0 <= k < |p| ==> 0.0 <= r[k] < 1.0
  {
    seq(|p|, k requires 0 <= k < |p| => FloorSplit(p[k]).1)
  }

  function Weights(frac: seq<real>): (r: seq<real>)
    ensures |r| == |frac|
  {
    seq(|frac|, k requires 0 <= k < |frac| => Curve(frac[k]))
  }

  /** Lattice noise at a point of any of the three supported dimensions:
      the common definition `LNoise3D`, `LNoise4D` and `LNoise5D` unroll. */
  function LatticeNoise(p: seq<real>, t: seq<int>): (r: real)
    requires ValidTable(t) && 3 <= |p| <= 5
    ensures Abs(r) <= (|p| - 1) as real
  {
    BlendBounded(p, t);
    Reduce(Corners(Cell(p), Frac(p), t), Weights(Frac(p)))
  }

  /** The blend of the corner values never exceeds `D - 1` in magnitude. */
  lemma BlendBounded(p: seq<real>, t: seq<int>)
    requires ValidTable(t) && 3 <= |p| <= 5
    ensures Abs(Reduce(Corners(Cell(p), Frac(p), t), Weights(Frac(p)))) <= (|p| - 1) as real
  {
    var frac := Frac(p);
    var dp := Corners(Cell(p), frac, t);
    forall i | 0 <= i < |dp|
      ensures Abs(dp[i]) <= (|p| - 1) as real
    {
      var v := CornerOffset(frac, i);
      assert forall k :: 0 <= k < |v| ==> -1.0 <= v[k] <= 1.0;
      HashChainInTable(t, CornerCell(Cell(p), i));
      GradientBound(HashChain(t, CornerCell(Cell(p), i)), v);
    }
    var ws := Weights(frac);
    forall k | 0 <= k < |ws|
      ensures 0.0 <= ws[k] <= 1.0
    {
      CurveRange(frac[k]);
    }
    ReduceBounded(dp, ws, (|p| - 1) as real);
  }

  predicate IsLatticePoint(p: seq<real>) {
    forall k :: 0 <= k < |p| ==> p[k] == p[k].Floor as real
  }

  /** The noise is zero at every lattice point. */
  lemma LatticeNoiseZeroAtLattice(p: seq<real>, t: seq<int>)
    requires ValidTable(t) && 3 <= |p| <= 5 && IsLatticePoint(p)
    ensures LatticeNoise(p, t) == 0.0
  {
    var frac := Frac(p);
    var ws := Weights(frac);
    ZeroWeightsAtLattice(p);
    var dp := Corners(Cell(p), frac, t);
    ReduceAtOrigin(dp, ws);
    CornerZeroAtLattice(p, t);
  }

  lemma ZeroWeightsAtLattice(p: seq<real>)
    requires IsLatticePoint(p)
    ensures forall k :: 0 <= k < |p| ==> Frac(p)[k] == 0.0 && Weights(Frac(p))[k] == 0.0
  {
    forall k | 0 <= k < |p|
      ensures Frac(p)[k] == 0.0 && Weights(Frac(p))[k] == 0.0
    {
      var f := Frac(p)[k];
      assert f == 0.0;
      CurveAtZero(f);
    }
  }

  lemma CurveAtZero(a: real)
    requires a == 0.0
    ensures Curve(a) == 0.0
  {
  }

  lemma CornerZeroAtLattice(p: seq<real>, t: seq<int>)
    requires ValidTable(t) && 3 <= |p| <= 5 && IsLatticePoint(p)
    ensures Corners(Cell(p), Frac(p), t)[0] == 0.0
  {
    ZeroWeightsAtLattice(p);
    var v := CornerOffset(Frac(p), 0);
    assert forall k :: 0 <= k < |v| ==> Bit(0, k) == 0;
    assert forall k :: 0 <= k < |v| ==> v[k] == 0.0;
    HashChainInTable(t, CornerCell(Cell(p), 0));
    GradientBound(HashChain(t, CornerCell(Cell(p), 0)), v);
  }

  /** Shifting any coordinate by the table size gives the same noise: the
      hashes only see the low ten bits of each integer coordinate. */
  lemma LatticeNoisePeriodic(p: seq<real>, k: nat, t: seq<int>)
    requires ValidTable(t) && 3 <= |p| <= 5 && k < |p|
    ensures LatticeNoise(p[k := p[k] + TABLE_SIZE as real], t) == LatticeNoise(p, t)
  {
    var q := p[k := p[k] + TABLE_SIZE as real];
    assert q[k].Floor == p[k].Floor + TABLE_SIZE;
    assert Frac(q) == Frac(p);
    var cp := Cell(p);
    var cq := Cell(q);
    forall i | 0 <= i < Pow2(|p|)
      ensures HashChain(t, CornerCell(cq, i)) == HashChain(t, CornerCell(cp, i))
    {
      var a := CornerCell(cq, i);
      var b := CornerCell(cp, i);
      forall m | 0 <= m < |a|
        ensures a[m] % TABLE_SIZE == b[m] % TABLE_SIZE
      {
        if m == k {
          assert a[m] == b[m] + TABLE_SIZE;
        } else {
          assert a[m] == b[m];
        }
      }
      HashChainPeriodic(t, a, b);
    }
    assert Corners(cq, Frac(q), t) == Corners(cp, Frac(p), t);
  }

  /** The eight `dp[i]` of `LNoise3D`. */
  function CornerValues3D(xi: int, yi: int, zi: int, xf: real, yf: real, zf: real, t: seq<int>): (dp: seq<real>)
    requires ValidTable(t)
    ensures |dp| == 8
  {
    seq(8, i requires 0 <= i < 8 =>
      Hash3InTable(t, xi + Bit(i, 0), yi + Bit(i, 1), zi + Bit(i, 2));
      Gradient(Hash3(t, xi + Bit(i, 0), yi + Bit(i, 1), zi + Bit(i, 2)),
               [xf - Bit(i, 0) as real, yf - Bit(i, 1) as real, zf - Bit(i, 2) as real]))
  }

  /** `LNoise3D` as the source writes it: eight corners, then seven blends. */
  function LNoise3D(x: real, y: real, z: real, t: seq<int>): (r: real)
    requires ValidTable(t)
    ensures r == LatticeNoise([x, y, z], t)
    ensures Abs(r) <= 2.0
  {
    var (xi, xf) := FloorSplit(x);
    var (yi, yf) := FloorSplit(y);
    var (zi, zf) := FloorSplit(z);
    var dp := CornerValues3D(xi, yi, zi, xf, yf, zf, t);
    var cxf := Curve(xf);
    var cyf := Curve(yf);
    var czf := Curve(zf);
    Corners3DAgree(x, y, z, t);
    Reduce3(dp, [cxf, cyf, czf]);
    var v1 := Lerp(cxf, dp[0], dp[1]);
    var v2 := Lerp(cxf, dp[2], dp[3]);
    var v3 := Lerp(cxf, dp[4], dp[5]);
    var v4 := Lerp(cxf, dp[6], dp[7]);
    var v1' := Lerp(cyf, v1, v2);
    var v3' := Lerp(cyf, v3, v4);
    Lerp(czf, v1', v3')
  }

  lemma Reduce3(vals: seq<real>, ws: seq<real>)
    requires |vals| == 8 && |ws| == 3
    ensures Pow2(3) == 8
    ensures Reduce(vals, ws)
         == Lerp(ws[2], Lerp(ws[1], Lerp(ws[0], vals[0], vals[1]), Lerp(ws[0], vals[2], vals[3])),
                        Lerp(ws[1], Lerp(ws[0], vals[4], vals[5]), Lerp(ws[0], vals[6], vals[7])))
  {
    assert Pow2(3) == 8 && Pow2(2) == 4 && Pow2(1) == 2;
    var h1 := Halve(vals, ws[0]);
    var h2 := Halve(h1, ws[1]);
    var h3 := Halve(h2, ws[2]);
    assert ws[1..][1..][1..] == [];
    calc {
      Reduce(vals, ws);
      Reduce(h1, ws[1..]);
      Reduce(h2, ws[1..][1..]);
      Reduce(h3, ws[1..][1..][1..]);
      h3[0];
    }
  }

  lemma CornerCell3(cell: seq<int>, i: nat)
    requires |cell| == 3
    ensures CornerCell(cell, i) == [cell[0] + Bit(i, 0), cell[1] + Bit(i, 1), cell[2] + Bit(i, 2)]
  {
  }

  lemma CornerOffset3(frac: seq<real>, i: nat)
    requires |frac| == 3
    ensures CornerOffset(frac, i) == [frac[0] - Bit(i, 0) as real, frac[1] - Bit(i, 1) as real, frac[2] - Bit(i, 2) as real]
  {
  }

  lemma CornerCell4(cell: seq<int>, i: nat)
    requires |cell| == 4
    ensures CornerCell(cell, i) == [cell[0] + Bit(i, 0), cell[1] + Bit(i, 1), cell[2] + Bit(i, 2), cell[3] + Bit(i, 3)]
  {
  }

  lemma CornerOffset4(frac: seq<real>, i: nat)
    requires |frac| == 4
    ensures CornerOffset(frac, i)
         == [frac[0] - Bit(i, 0) as real, frac[1] - Bit(i, 1) as real,
             frac[2] - Bit(i, 2) as real, frac[3] - Bit(i, 3) as real]
  {
  }

  lemma CornerCell5(cell: seq<int>, i: nat)
    requires |cell| == 5
    ensures CornerCell(cell, i)
         == [cell[0] + Bit(i, 0), cell[1] + Bit(i, 1), cell[2] + Bit(i, 2), cell[3] + Bit(i, 3), cell[4] + Bit(i, 4)]
  {
  }

  lemma CornerOffset5(frac: seq<real>, i: nat)
    requires |frac| == 5
    ensures CornerOffset(frac, i)
         == [frac[0] - Bit(i, 0) as real, frac[1] - Bit(i, 1) as real, frac[2] - Bit(i, 2) as real,
             frac[3] - Bit(i, 3) as real, frac[4] - Bit(i, 4) as real]
  {
  }

  /** Entry `i` of `CornerValues3D`. */
  lemma CornerValue3D(xi: int, yi: int, zi: int, xf: real, yf: real, zf: real, t: seq<int>, i: nat)
    requires ValidTable(t) && i < 8
    ensures 0 <= Hash3(t, xi + Bit(i, 0), yi + Bit(i, 1), zi + Bit(i, 2))
    ensures CornerValues3D(xi, yi, zi, xf, yf, zf, t)[i]
         == Gradient(Hash3(t, xi + Bit(i, 0), yi + Bit(i, 1), zi + Bit(i, 2)),
                     [xf - Bit(i, 0) as real, yf - Bit(i, 1) as real, zf - Bit(i, 2) as real])
  {
    Hash3InTable(t, xi + Bit(i, 0), yi + Bit(i, 1), zi + Bit(i, 2));
  }

  /** Corner `i` of the three-dimensional noise, as `LNoise3D` computes it. */
  lemma Corner3D(cell: seq<int>, frac: seq<real>, t: seq<int>, i: nat)
    requires ValidTable(t) && |cell| == 3 && |frac| == 3 && i < 8
    ensures Pow2(3) == 8
    ensures Corners(cell, frac, t)[i]
         == CornerValues3D(cell[0], cell[1], cell[2], frac[0], frac[1], frac[2], t)[i]
  {
    assert Pow2(3) == 8;
    var a, b, c := cell[0] + Bit(i, 0), cell[1] + Bit(i, 1), cell[2] + Bit(i, 2);
    CornerAt(cell, frac, t, i);
    CornerCell3(cell, i);
    CornerOffset3(frac, i);
    Hash3IsChain(t, a, b, c);
    assert HashChain(t, CornerCell(cell, i)) == Hash3(t, a, b, c);
    CornerValue3D(cell[0], cell[1], cell[2], frac[0], frac[1], frac[2], t, i);
  }

  /** The eight corner values of `LNoise3D` are those of the common definition. */
  lemma Corners3DAgree(x: real, y: real, z: real, t: seq<int>)
    requires ValidTable(t)
    ensures var p := [x, y, z];
            && CornerValues3D(FloorSplit(x).0, FloorSplit(y).0, FloorSplit(z).0,
                              FloorSplit(x).1, FloorSplit(y).1, FloorSplit(z).1, t) == Corners(Cell(p), Frac(p), t)
            && Weights(Frac(p)) == [Curve(FloorSplit(x).1), Curve(FloorSplit(y).1), Curve(FloorSplit(z).1)]
  {
    var p := [x, y, z];
    var cell := Cell(p);
    var frac := Frac(p);
    var dp := Corners(cell, frac, t);
    var dp3 := CornerValues3D(cell[0], cell[1], cell[2], frac[0], frac[1], frac[2], t);
    forall i | 0 <= i < 8
      ensures dp3[i] == dp[i]
    {
      Corner3D(cell, frac, t, i);
    }
    assert dp3 == dp;
  }

  /** The sixteen `dp[i]` of `LNoise4D`. */
  function CornerValues4D(xi: int, yi: int, zi: int, ti: int, xf: real, yf: real, zf: real, tf: real,
                          t: seq<int>): (dp: seq<real>)
    requires ValidTable(t)
    ensures |dp| == 16
  {
    seq(16, i requires 0 <= i < 16 =>
      Hash4InTable(t, xi + Bit(i, 0), yi + Bit(i, 1), zi + Bit(i, 2), ti + Bit(i, 3));
      Gradient(Hash4(t, xi + Bit(i, 0), yi + Bit(i, 1), zi + Bit(i, 2), ti + Bit(i, 3)),
               [xf - Bit(i, 0) as real, yf - Bit(i, 1) as real, zf - Bit(i, 2) as real, tf - Bit(i, 3) as real]))
  }

  /** Entry `i` of `CornerValues4D`. */
  lemma CornerValue4D(xi: int, yi: int, zi: int, ti: int, xf: real, yf: real, zf: real, tf: real,
                      t: seq<int>, i: nat)
    requires ValidTable(t) && i < 16
    ensures 0 <= Hash4(t, xi + Bit(i, 0), yi + Bit(i, 1), zi + Bit(i, 2), ti + Bit(i, 3))
    ensures CornerValues4D(xi, yi, zi, ti, xf, yf, zf, tf, t)[i]
         == Gradient(Hash4(t, xi + Bit(i, 0), yi + Bit(i, 1), zi + Bit(i, 2), ti + Bit(i, 3)),
                     [xf - Bit(i, 0) as real, yf - Bit(i, 1) as real, zf - Bit(i, 2) as real, tf - Bit(i, 3) as real])
  {
    Hash4InTable(t, xi + Bit(i, 0), yi + Bit(i, 1), zi + Bit(i, 2), ti + Bit(i, 3));
  }

  /** `LNoise4D` as the source writes it: sixteen corners, then fifteen blends. */
  function LNoise4D(x: real, y: real, z: real, w: real, t: seq<int>): (r: real)
    requires ValidTable(t)
    ensures r == LatticeNoise([x, y, z, w], t)
    ensures Abs(r) <= 3.0
  {
    var (xi, xf) := FloorSplit(x);
    var (yi, yf) := FloorSplit(y);
    var (zi, zf) := FloorSplit(z);
    var (ti, tf) := FloorSplit(w);
    var dp := CornerValues4D(xi, yi, zi, ti, xf, yf, zf, tf, t);
    var cxf := Curve(xf);
    var cyf := Curve(yf);
    var czf := Curve(zf);
    var ctf := Curve(tf);
    Corners4DAgree(x, y, z, w, t);
    Reduce4(dp, [cxf, cyf, czf, ctf]);
    var v1 := Lerp(cxf, dp[0], dp[1]);
    var v2 := Lerp(cxf, dp[2], dp[3]);
    var v3 := Lerp(cxf, dp[4], dp[5]);
    var v4 := Lerp(cxf, dp[6], dp[7]);
    var v5 := Lerp(cxf, dp[8], dp[9]);
    var v6 := Lerp(cxf, dp[10], dp[11]);
    var v7 := Lerp(cxf, dp[12], dp[13]);
    var v8 := Lerp(cxf, dp[14], dp[15]);
    var v1' := Lerp(cyf, v1, v2);
    var v3' := Lerp(cyf, v3, v4);
    var v5' := Lerp(cyf, v5, v6);
    var v7' := Lerp(cyf, v7, v8);
    var v1'' := Lerp(czf, v1', v3');
    var v5'' := Lerp(czf, v5', v7');
    Lerp(ctf, v1'', v5'')
  }

  lemma Reduce4(vals: seq<real>, ws: seq<real>)
    requires |vals| == 16 && |ws| == 4
    ensures Pow2(4) == 16
    ensures Reduce(vals, ws)
         == Lerp(ws[3],
              Lerp(ws[2], Lerp(ws[1], Lerp(ws[0], vals[0], vals[1]), Lerp(ws[0], vals[2], vals[3])),
                          Lerp(ws[1], Lerp(ws[0], vals[4], vals[5]), Lerp(ws[0], vals[6], vals[7]))),
              Lerp(ws[2], Lerp(ws[1], Lerp(ws[0], vals[8], vals[9]), Lerp(ws[0], vals[10], vals[11])),
                          Lerp(ws[1], Lerp(ws[0], vals[12], vals[13]), Lerp(ws[0], vals[14], vals[15]))))
  {
    assert Pow2(4) == 16 && Pow2(3) == 8 && Pow2(2) == 4 && Pow2(1) == 2;
    var h1 := Halve(vals, ws[0]);
    var h2 := Halve(h1, ws[1]);
    var h3 := Halve(h2, ws[2]);
    var h4 := Halve(h3, ws[3]);
    assert ws[1..][1..][1..][1..] == [];
    calc {
      Reduce(vals, ws);
      Reduce(h1, ws[1..]);
      Reduce(h2, ws[1..][1..]);
      Reduce(h3, ws[1..][1..][1..]);
      Reduce(h4, ws[1..][1..][1..][1..]);
      h4[0];
    }
  }

  /** Corner `i` of the four-dimensional noise, as `LNoise4D` computes it. */
  lemma Corner4D(cell: seq<int>, frac: seq<real>, t: seq<int>, i: nat)
    requires ValidTable(t) && |cell| == 4 && |frac| == 4 && i < 16
    ensures Pow2(4) == 16
    ensures Corners(cell, frac, t)[i]
         == CornerValues4D(cell[0], cell[1], cell[2], cell[3], frac[0], frac[1], frac[2], frac[3], t)[i]
  {
    assert Pow2(4) == 16;
    var a, b, c, d := cell[0] + Bit(i, 0), cell[1] + Bit(i, 1), cell[2] + Bit(i, 2), cell[3] + Bit(i, 3);
    CornerAt(cell, frac, t, i);
    CornerCell4(cell, i);
    CornerOffset4(frac, i);
    Hash4IsChain(t, a, b, c, d);
    assert HashChain(t, CornerCell(cell, i)) == Hash4(t, a, b, c, d);
    CornerValue4D(cell[0], cell[1], cell[2], cell[3], frac[0], frac[1], frac[2], frac[3], t, i);
  }

  /** The sixteen corner values of `LNoise4D` are those of the common definition. */
  lemma Corners4DAgree(x: real, y: real, z: real, w: real, t: seq<int>)
    requires ValidTable(t)
    ensures var p := [x, y, z, w];
            && CornerValues4D(FloorSplit(x).0, FloorSplit(y).0, FloorSplit(z).0, FloorSplit(w).0,
                              FloorSplit(x).1, FloorSplit(y).1, FloorSplit(z).1, FloorSplit(w).1, t)
               == Corners(Cell(p), Frac(p), t)
            && Weights(Frac(p)) == [Curve(FloorSplit(x).1), Curve(FloorSplit(y).1), Curve(FloorSplit(z).1), Curve(FloorSplit(w).1)]
  {
    var p := [x, y, z, w];
    var cell := Cell(p);
    var frac := Frac(p);
    var dp := Corners(cell, frac, t);
    var dp4 := CornerValues4D(cell[0], cell[1], cell[2], cell[3], frac[0], frac[1], frac[2], frac[3], t);
    forall i | 0 <= i < 16
      ensures dp4[i] == dp[i]
    {
      Corner4D(cell, frac, t, i);
    }
    assert dp4 == dp;
  }

  /** Corner `i` of the five-dimensional noise, as `LNoise5D` computes it. */
  lemma Corner5D(cell: seq<int>, frac: seq<real>, t: seq<int>, i: nat)
    requires ValidTable(t) && |cell| == 5 && |frac| == 5 && i < 32
    ensures Pow2(5) == 32
    ensures 0 <= Hash5(t, cell[0] + Bit(i, 0), cell[1] + Bit(i, 1), cell[2] + Bit(i, 2),
                       cell[3] + Bit(i, 3), cell[4] + Bit(i, 4))
    ensures Corners(cell, frac, t)[i]
         == Gradient(Hash5(t, cell[0] + Bit(i, 0), cell[1] + Bit(i, 1), cell[2] + Bit(i, 2),
                             cell[3] + Bit(i, 3), cell[4] + Bit(i, 4)),
                       [frac[0] - Bit(i, 0) as real, frac[1] - Bit(i, 1) as real, frac[2] - Bit(i, 2) as real,
                        frac[3] - Bit(i, 3) as real, frac[4] - Bit(i, 4) as real])
  {
    assert Pow2(5) == 32;
    var a, b, c, d, e := cell[0] + Bit(i, 0), cell[1] + Bit(i, 1), cell[2] + Bit(i, 2), cell[3] + Bit(i, 3), cell[4] + Bit(i, 4);
    CornerAt(cell, frac, t, i);
    CornerCell5(cell, i);
    CornerOffset5(frac, i);
    Hash5IsChain(t, a, b, c, d, e);
    assert HashChain(t, CornerCell(cell, i)) == Hash5(t, a, b, c, d, e);
  }

  /** One halving pass followed by the blend of the rest. */
  lemma ReduceStep(vals: seq<real>, ws: seq<real>, w: real, rest: seq<real>)
    requires ws == [w] + rest && |vals| == Pow2(|ws|)
    ensures |Halve(vals, w)| == Pow2(|rest|)
    ensures Reduce(vals, ws) == Reduce(Halve(vals, w), rest)
  {
    assert ws[0] == w && ws[1..] == rest;
  }

  /** The five halving passes of a 32-corner blend. */
  lemma Reduce5(vals: seq<real>, ws: seq<real>)
    requires |vals| == 32 && |ws| == 5
    ensures Pow2(5) == 32
    ensures var l1 := Halve(vals, ws[0]);
            var l2 := Halve(l1, ws[1]);
            var l3 := Halve(l2, ws[2]);
            var l4 := Halve(l3, ws[3]);
            Reduce(vals, ws) == Lerp(ws[4], l4[0], l4[1])
  {
    assert Pow2(5) == 32 && Pow2(4) == 16 && Pow2(3) == 8 && Pow2(2) == 4 && Pow2(1) == 2;
    var h1 := Halve(vals, ws[0]);
    var h2 := Halve(h1, ws[1]);
    var h3 := Halve(h2, ws[2]);
    var h4 := Halve(h3, ws[3]);
    assert ws[4..] == [ws[4]];
    ReduceStep(vals, ws, ws[0], ws[1..]);
    ReduceStep(h1, ws[1..], ws[1], ws[2..]);
    ReduceStep(h2, ws[2..], ws[2], ws[3..]);
    ReduceStep(h3, ws[3..], ws[3], ws[4..]);
    ReduceStep(h4, ws[4..], ws[4], []);
  }

  /** The corner loop of `LNoise5D`: `dp[i]` for the thirty-two corners. */
  method CornerArray5D(cell: seq<int>, frac: seq<real>, t: seq<int>) returns (dp: array<real>)
    requires ValidTable(t) && |cell| == 5 && |frac| == 5
    ensures fresh(dp) && dp.Length == 32
    ensures Pow2(5) == 32 && dp[..] == Corners(cell, frac, t)
  {
    assert Pow2(5) == 32;
    ghost var d := Corners(cell, frac, t);
    dp := new real[32];
    var i := 0;
    while i < 32
      invariant 0 <= i <= 32
      invariant forall m :: 0 <= m < i ==> dp[m] == d[m]
    {
      var h := Hash5(t, cell[0] + Bit(i, 0), cell[1] + Bit(i, 1), cell[2] + Bit(i, 2),
                     cell[3] + Bit(i, 3), cell[4] + Bit(i, 4));
      assert 0 <= h by {
        Corner5D(cell, frac, t, i);
      }
      var g := Gradient(h, [frac[0] - Bit(i, 0) as real, frac[1] - Bit(i, 1) as real,
                            frac[2] - Bit(i, 2) as real, frac[3] - Bit(i, 3) as real,
                            frac[4] - Bit(i, 4) as real]);
      assert g == d[i] by {
        Corner5D(cell, frac, t, i);
      }
      dp[i] := g;
      i := i + 1;
    }
    assert dp[..] == d;
  }

  /** `for (i = 0; i < 32; i += 2) dp[i] = LERP(w, dp[i], dp[i + 1])`. */
  method BlendStride1(dp: array<real>, w: real, ghost lvl: seq<real>)
    requires dp.Length == 32 && |lvl| == 32
    requires forall j :: 0 <= j < 32 ==> dp[j] == lvl[j]
    modifies dp
    ensures forall j :: 0 <= j < 16 ==> dp[2 * j] == Halve(lvl, w)[j]
  {
    var i := 0;
    ghost var k := 0;
    while i < 32
      invariant 0 <= k <= 16 && i == 2 * k
      invariant forall j :: 0 <= j < k ==> dp[2 * j] == Lerp(w, lvl[2 * j], lvl[2 * j + 1])
      invariant forall j :: 2 * k <= j < 32 ==> dp[j] == lvl[j]
    {
      dp[i] := Lerp(w, dp[i], dp[i + 1]);
      i, k := i + 2, k + 1;
    }
  }

  /** `for (i = 0; i < 32; i += 4) dp[i] = LERP(w, dp[i], dp[i + 2])`. */
  method BlendStride2(dp: array<real>, w: real, ghost lvl: seq<real>)
    requires dp.Length == 32 && |lvl| == 16
    requires forall j :: 0 <= j < 16 ==> dp[2 * j] == lvl[j]
    modifies dp
    ensures forall j :: 0 <= j < 8 ==> dp[4 * j] == Halve(lvl, w)[j]
  {
    var i := 0;
    ghost var k := 0;
    while i < 32
      invariant 0 <= k <= 8 && i == 4 * k
      invariant forall j :: 0 <= j < k ==> dp[4 * j] == Lerp(w, lvl[2 * j], lvl[2 * j + 1])
      invariant forall j :: 2 * k <= j < 16 ==> dp[2 * j] == lvl[j]
    {
      dp[i] := Lerp(w, dp[i], dp[i + 2]);
      i, k := i + 4, k + 1;
    }
  }

  /** `for (i = 0; i < 32; i += 8) dp[i] = LERP(w, dp[i], dp[i + 4])`. */
  method BlendStride4(dp: array<real>, w: real, ghost lvl: seq<real>)
    requires dp.Length == 32 && |lvl| == 8
    requires forall j :: 0 <= j < 8 ==> dp[4 * j] == lvl[j]
    modifies dp
    ensures forall j :: 0 <= j < 4 ==> dp[8 * j] == Halve(lvl, w)[j]
  {
    var i := 0;
    ghost var k := 0;
    while i < 32
      invariant 0 <= k <= 4 && i == 8 * k
      invariant forall j :: 0 <= j < k ==> dp[8 * j] == Lerp(w, lvl[2 * j], lvl[2 * j + 1])
      invariant forall j :: 2 * k <= j < 8 ==> dp[4 * j] == lvl[j]
    {
      dp[i] := Lerp(w, dp[i], dp[i + 4]);
      i, k := i + 8, k + 1;
    }
  }

  /** The three in-place passes along x, y and z leave the eight partial
      blends at indices 0, 8, 16 and 24. */
  method BlendStrides(dp: array<real>, ws: seq<real>, ghost d: seq<real>)
    requires dp.Length == 32 && |ws| == 5 && dp[..] == d
    modifies dp
    ensures var l3 := Halve(Halve(Halve(d, ws[0]), ws[1]), ws[2]);
            dp[0] == l3[0] && dp[8] == l3[1] && dp[16] == l3[2] && dp[24] == l3[3]
  {
    ghost var l1 := Halve(d, ws[0]);
    ghost var l2 := Halve(l1, ws[1]);
    BlendStride1(dp, ws[0], d);
    BlendStride2(dp, ws[1], l1);
    BlendStride4(dp, ws[2], l2);
  }

  /** The blending half of `LNoise5D`: the strided passes, then the two
      blends along `s` and the last one along `t`. */
  method Blend5D(dp: array<real>, ws: seq<real>, ghost d: seq<real>) returns (r: real)
    requires dp.Length == 32 && |ws| == 5 && dp[..] == d
    modifies dp
    ensures Pow2(5) == 32 && r == Reduce(d, ws)
  {
    BlendStrides(dp, ws, d);
    ghost var l3 := Halve(Halve(Halve(d, ws[0]), ws[1]), ws[2]);
    dp[0] := Lerp(ws[3], dp[0], dp[8]);
    dp[16] := Lerp(ws[3], dp[16], dp[24]);
    r := Lerp(ws[4], dp[0], dp[16]);
    Reduce5(d, ws);
  }

  /** `LNoise5D`: thirty-two corners in an array, then the in-place blends. */
  method LNoise5D(x: real, y: real, z: real, s: real, w: real, t: seq<int>) returns (r: real)
    requires ValidTable(t)
    ensures r == LatticeNoise([x, y, z, s, w], t)
    ensures Abs(r) <= 4.0
  {
    ghost var p := [x, y, z, s, w];
    var (xi, xf) := FloorSplit(x);
    var (yi, yf) := FloorSplit(y);
    var (zi, zf) := FloorSplit(z);
    var (si, sf) := FloorSplit(s);
    var (ti, tf) := FloorSplit(w);
    assert [xi, yi, zi, si, ti] == Cell(p) && [xf, yf, zf, sf, tf] == Frac(p);
    var dp := CornerArray5D([xi, yi, zi, si, ti], [xf, yf, zf, sf, tf], t);
    var ws := [Curve(xf), Curve(yf), Curve(zf), Curve(sf), Curve(tf)];
    assert ws == Weights(Frac(p));
    r := Blend5D(dp, ws, dp[..]);
  }
}
