/** Sparse convolution noise in three, four and five dimensions.

    The integer cell around a point and its `3^D - 1` neighbours are visited,
    the last axis outermost. Each cell's seed is the hash chain of its integer
    coordinates; the seed fixes how many feature points the cell holds and,
    through successive `RANDOM` draws, where they lie. Every point closer than
    1 adds `KERNEL(squared distance)`.

    One cache slot per visited position remembers the seed and the points it
    generated last time; a later visit with the same non-zero seed reads them
    back instead of drawing them again. Because the points are a function of
    the seed alone, the cache never changes the result: `SNoise` below proves
    it equal to the cache-free `SparseNoise`. */
module Sparse {
  import opened Common
  import opened RandomEngine

  /** `Poisson_count`, `RANDOM` and `KERNEL` come from headers that are not
      part of this model; they are parameters here. */
  datatype Features = Features(count: seq<nat>, next: Word -> Word, kernel: real -> real)

  predicate ValidFeatures(f: Features) {
    |f.count| == 256
  }

  /** `(a < 0.0) ? (gint32)a - 1 : (gint32)a`. */
  function IntAt(a: real): (r: int)
    ensures r as real <= a <= r as real + 1.0
    ensures r == a.Floor <==> !(a < 0.0 && a == a.Floor as real)
    ensures a < 0.0 && a == a.Floor as real ==> r == a.Floor - 1
  {
    if a < 0.0 then Trunc(a) - 1 else Trunc(a)
  }

  function IntAts(a: seq<real>): (r: seq<int>)
    ensures |r| == |a|
  {
    seq(|a|, k requires 0 <= k < |a| => IntAt(a[k]))
  }

  /** The neighbour offsets `a[0..D-1]` of visit number `n`: axis 0 runs
      fastest, each through -1, 0, 1. */
  function Offsets(n: nat, d: nat): (o: seq<int>)
    ensures |o| == d
    ensures forall k :: 0 <= k < d ==> -1 <= o[k] <= 1
  {
    if d == 0 then [] else [n % 3 - 1] + Offsets(n / 3, d - 1)
  }

  /** The cache slot of offsets `o`: `(a[2]+1)*9 + (a[1]+1)*3 + (a[0]+1)` in
      three dimensions. */
  function SlotIndex(o: seq<int>): int {
    if |o| == 0 then 0 else (o[0] + 1) + 3 * SlotIndex(o[1..])
  }

  predicate UnitOffsets(o: seq<int>) {
    forall k :: 0 <= k < |o| ==> -1 <= o[k] <= 1
  }

  /** The slot index of the `n`-th visit is `n`: the cache pointer advances
      once per visited cell. */
  lemma {:induction false} SlotOfOffsets(n: nat, d: nat)
    requires n < Pow3(d)
    ensures SlotIndex(Offsets(n, d)) == n
    decreases d
  {
    if d > 0 {
      SlotOfOffsets(n / 3, d - 1);
      assert Offsets(n, d)[1..] == Offsets(n / 3, d - 1);
    }
  }

  /** Every combination of offsets in {-1, 0, 1} is visited, at its slot. */
  lemma {:induction false} OffsetsOfSlot(o: seq<int>)
    requires UnitOffsets(o)
    ensures 0 <= SlotIndex(o) < Pow3(|o|)
    ensures Offsets(SlotIndex(o), |o|) == o
    decreases |o|
  {
    if |o| > 0 {
      OffsetsOfSlot(o[1..]);
      var n := SlotIndex(o);
      assert n % 3 == o[0] + 1 && n / 3 == SlotIndex(o[1..]);
      assert o == [o[0]] + o[1..];
    }
  }

  lemma SlotIndex3D(a0: int, a1: int, a2: int)
    ensures SlotIndex([a0, a1, a2]) == (a2 + 1) * 9 + (a1 + 1) * 3 + (a0 + 1)
  {
    assert [a0, a1, a2][1..] == [a1, a2];
    assert [a1, a2][1..] == [a2];
    assert [a2][1..] == [];
    assert SlotIndex([a2]) == a2 + 1;
    assert SlotIndex([a1, a2]) == (a1 + 1) + 3 * (a2 + 1);
  }

  /** The integer coordinates of the `n`-th visited cell. */
  function Neighbour(ia: seq<int>, n: nat): (cell: seq<int>)
    ensures |cell| == |ia|
  {
    var o := Offsets(n, |ia|);
    seq(|ia|, k requires 0 <= k < |ia| => ia[k] + o[k])
  }

  /** `seed[D-1] = Hash1(cell[D-1])`, then `seed[k] = Hash1(seed[k+1] + cell[k])`. */
  function CellSeed(t: seq<int>, cell: seq<int>): (s: Word)
    requires ValidTable(t) && |cell| >= 1
  {
    HashChainInRange(t, cell);
    HashChain(t, cell)
  }

  lemma HashChainInRange(t: seq<int>, args: seq<int>)
    requires ValidTable(t) && |args| >= 1
    ensures 0 <= HashChain(t, args) < 65536
  {
  }

  /** `Poisson_count[seed & 255]`. */
  function Count(f: Features, seed: Word): nat
    requires ValidFeatures(f)
  {
    f.count[seed % 256]
  }

  /** `seed` after `m` applications of `RANDOM`. */
  function Iterate(next: Word -> Word, seed: Word, m: nat): Word {
    if m == 0 then seed else next(Iterate(next, seed, m - 1))
  }

  /** `(seed + 0.5) * (1.0 / 4294967296.0)`: strictly inside the unit interval. */
  function UnitCoord(s: Word): (r: real)
    ensures 0.0 < r < 1.0
  {
    (s as real + 0.5) / 4294967296.0
  }

  /** Feature point `j` of a `D`-dimensional cell: draws `D*j + 1` to `D*j + D`. */
  function Point(next: Word -> Word, seed: Word, d: nat, j: nat): (p: seq<real>)
    ensures |p| == d
  {
    seq(d, k requires 0 <= k < d => UnitCoord(Iterate(next, seed, d * j + k + 1)))
  }

  /** All feature points of a cell with seed `seed`. */
  function Points(f: Features, seed: Word, d: nat): (ps: seq<seq<real>>)
    requires ValidFeatures(f)
    ensures |ps| == Count(f, seed)
    ensures forall j :: 0 <= j < |ps| ==> |ps[j]| == d
  {
    seq(Count(f, seed), j requires 0 <= j < Count(f, seed) => Point(f.next, seed, d, j))
  }

  /** `d[0]*d[0] + d[1]*d[1] + ...` with `d[k] = p[k] + fa[k]`. */
  function SqDist(p: seq<real>, fa: seq<real>): (r: real)
    requires |p| == |fa|
    ensures 0.0 <= r
  {
    if |p| == 0 then 0.0
    else
      var n := |p| - 1;
      SquareNonneg(p[n] + fa[n]);
      SqDist(p[..n], fa[..n]) + (p[n] + fa[n]) * (p[n] + fa[n])
  }

  lemma SquareNonneg(x: real)
    ensures 0.0 <= x * x
  {
    if x < 0.0 {
      assert x * x == (-x) * (-x);
    }
  }

  /** What one point adds: `KERNEL(dist)` if `dist < 1.00`, else nothing. */
  function Term(f: Features, p: seq<real>, fa: seq<real>): real
    requires |p| == |fa|
  {
    var dist := SqDist(p, fa);
    if dist < 1.0 then f.kernel(dist) else 0.0
  }

  predicate PointsOfDim(ps: seq<seq<real>>, d: nat) {
    forall j :: 0 <= j < |ps| ==> |ps[j]| == d
  }

  /** The contributions of a cell's points, added in order. */
  function CellSum(f: Features, ps: seq<seq<real>>, fa: seq<real>): real
    requires PointsOfDim(ps, |fa|)
  {
    if |ps| == 0 then 0.0
    else CellSum(f, ps[..|ps| - 1], fa) + Term(f, ps[|ps| - 1], fa)
  }

  /** `fa[k] = a[k] + int_at[k] - a_k`: from the point to the cell's origin. */
  function CellOffset(cell: seq<int>, a: seq<real>): (fa: seq<real>)
    requires |cell| == |a|
    ensures |fa| == |a|
  {
    seq(|a|, k requires 0 <= k < |a| => cell[k] as real - a[k])
  }

  /** The contribution of the `n`-th visited cell, without any cache. */
  function CellNoise(f: Features, t: seq<int>, a: seq<real>, n: nat): real
    requires ValidFeatures(f) && ValidTable(t) && |a| >= 1
  {
    var cell := Neighbour(IntAts(a), n);
    CellSum(f, Points(f, CellSeed(t, cell), |a|), CellOffset(cell, a))
  }

  /** The first `m` visited cells' contributions. */
  function WalkSum(f: Features, t: seq<int>, a: seq<real>, m: nat): real
    requires ValidFeatures(f) && ValidTable(t) && |a| >= 1
  {
    if m == 0 then 0.0 else WalkSum(f, t, a, m - 1) + CellNoise(f, t, a, m - 1)
  }

  /** Sparse noise at `a`, defined without the cache. */
  function SparseNoise(f: Features, t: seq<int>, a: seq<real>): real
    requires ValidFeatures(f) && ValidTable(t) && |a| >= 1
  {
    WalkSum(f, t, a, Pow3(|a|))
  }

  /** Sparse noise is never negative while the kernel is not. */
  lemma SparseNoiseNonneg(f: Features, t: seq<int>, a: seq<real>)
    requires ValidFeatures(f) && ValidTable(t) && |a| >= 1
    requires forall x :: 0.0 <= x < 1.0 ==> 0.0 <= f.kernel(x)
    ensures 0.0 <= SparseNoise(f, t, a)
  {
    WalkSumNonneg(f, t, a, Pow3(|a|));
  }

  /** One cache entry: `last_seed` and the points `p[k][j]`, stored here
      point by point. */
  datatype Slot = Slot(lastSeed: Word, points: seq<seq<real>>)

  /** `InitSNoiseBasis3D/4D/5D`: `3^D` zeroed slots. */
  function EmptyCache(d: nat): (c: seq<Slot>)
    ensures |c| == Pow3(d)
    ensures forall n :: 0 <= n < |c| ==> c[n].lastSeed == 0
  {
    seq(Pow3(d), n => Slot(0, []))
  }

  lemma CacheSizes()
    ensures |EmptyCache(3)| == 27 && |EmptyCache(4)| == 81 && |EmptyCache(5)| == 243
  {
    assert Pow3(3) == 27 && Pow3(4) == 81 && Pow3(5) == 243;
  }

  /** A slot that has ever been filled holds exactly its seed's points. */
  predicate SlotConsistent(f: Features, d: nat, s: Slot)
    requires ValidFeatures(f)
  {
    s.lastSeed != 0 ==> s.points == Points(f, s.lastSeed, d)
  }

  predicate CacheConsistent(f: Features, d: nat, c: seq<Slot>)
    requires ValidFeatures(f)
  {
    |c| == Pow3(d) && forall n :: 0 <= n < |c| ==> SlotConsistent(f, d, c[n])
  }

  lemma EmptyCacheConsistent(f: Features, d: nat)
    requires ValidFeatures(f)
    ensures CacheConsistent(f, d, EmptyCache(d))
  {
  }

  /** `(seed[0] != cache->last_seed) || (seed[0] == 0)`; the four-dimensional
      basis guards this with `1 ||` and so regenerates on every visit. */
  predicate Regenerate(cacheOn: bool, s: Slot, seed: Word) {
    !cacheOn || seed != s.lastSeed || seed == 0
  }

  /** The miss path: draw the cell's points, remember them, add their terms. */
  method DrawCell(f: Features, seed: Word, fa: seq<real>, r0: real)
    returns (r: real, ps: seq<seq<real>>)
    requires ValidFeatures(f)
    ensures ps == Points(f, seed, |fa|)
    ensures r == r0 + CellSum(f, ps, fa)
  {
    var d := |fa|;
    var count := f.count[seed % 256];
    var s := seed;
    ps := [];
    r := r0;
    var j := 0;
    while j < count
      invariant 0 <= j <= count
      invariant s == Iterate(f.next, seed, d * j)
      invariant ps == Points(f, seed, d)[..j]
      invariant r == r0 + CellSum(f, ps, fa)
    {
      var p: seq<real> := [];
      var k := 0;
      while k < d
        invariant 0 <= k <= d
        invariant s == Iterate(f.next, seed, d * j + k)
        invariant p == Point(f.next, seed, d, j)[..k]
      {
        s := f.next(s);
        p := p + [UnitCoord(s)];
        k := k + 1;
      }
      assert p == Point(f.next, seed, d, j);
      assert d * (j + 1) == d * j + d;
      assert Points(f, seed, d)[..j + 1] == ps + [p];
      assert (ps + [p])[..|ps|] == ps;
      ps := ps + [p];
      r := r + Term(f, p, fa);
      j := j + 1;
    }
  }

  /** The hit path: add the terms of the stored points. */
  method ReadCell(f: Features, ps: seq<seq<real>>, fa: seq<real>, r0: real) returns (r: real)
    requires PointsOfDim(ps, |fa|)
    ensures r == r0 + CellSum(f, ps, fa)
  {
    r := r0;
    var j := 0;
    while j < |ps|
      invariant 0 <= j <= |ps|
      invariant r == r0 + CellSum(f, ps[..j], fa)
    {
      assert ps[..j + 1][..j] == ps[..j];
      r := r + Term(f, ps[j], fa);
      j := j + 1;
    }
    assert ps[..j] == ps;
  }

  /** One visited cell: regenerate on a miss, read the slot back on a hit. */
  method Visit(f: Features, cacheOn: bool, seed: Word, fa: seq<real>, slot: Slot, r0: real)
    returns (r: real, slot': Slot)
    requires ValidFeatures(f) && SlotConsistent(f, |fa|, slot)
    ensures r == r0 + CellSum(f, Points(f, seed, |fa|), fa)
    ensures slot'.lastSeed == seed && SlotConsistent(f, |fa|, slot')
    ensures !Regenerate(cacheOn, slot, seed) ==> slot' == slot
  {
    if Regenerate(cacheOn, slot, seed) {
      var ps;
      r, ps := DrawCell(f, seed, fa, r0);
      slot' := Slot(seed, ps);
    } else {
      r := ReadCell(f, slot.points, fa, r0);
      slot' := slot;
    }
  }

  /** After `n` visits: the partial sum, a consistent cache, and the visited
      slots recording their cells' seeds. */
  predicate Walked(f: Features, t: seq<int>, a: seq<real>, n: nat, r: real, c: seq<Slot>)
    requires ValidFeatures(f) && ValidTable(t) && |a| >= 1
  {
    && n <= Pow3(|a|)
    && r == WalkSum(f, t, a, n)
    && CacheConsistent(f, |a|, c)
    && forall m :: 0 <= m < n ==> c[m].lastSeed == CellSeed(t, Neighbour(IntAts(a), m))
  }

  /** One iteration of the innermost loop body, with `cache++`. */
  method WalkStep(f: Features, cacheOn: bool, t: seq<int>, a: seq<real>, n: nat, r0: real, c0: seq<Slot>)
    returns (r: real, c: seq<Slot>)
    requires ValidFeatures(f) && ValidTable(t) && |a| >= 1
    requires n < Pow3(|a|) && Walked(f, t, a, n, r0, c0)
    ensures Walked(f, t, a, n + 1, r, c)
  {
    var cell := Neighbour(IntAts(a), n);
    var slot;
    r, slot := Visit(f, cacheOn, CellSeed(t, cell), CellOffset(cell, a), c0[n], r0);
    c := c0[n := slot];
  }

  /** `SNoise3D`, `SNoise4D` and `SNoise5D`: the neighbour walk with its
      cache. Whatever consistent cache it starts from, the result is the
      cache-free sparse noise, every slot ends up recording the seed of the
      cell last visited there, and the cache stays consistent. */
  method SNoise(f: Features, cacheOn: bool, t: seq<int>, a: seq<real>, cache: seq<Slot>)
    returns (r: real, cache': seq<Slot>)
    requires ValidFeatures(f) && ValidTable(t) && 3 <= |a| <= 5
    requires CacheConsistent(f, |a|, cache)
    ensures r == SparseNoise(f, t, a)
    ensures CacheConsistent(f, |a|, cache')
    ensures forall n :: 0 <= n < |cache'| ==> cache'[n].lastSeed == CellSeed(t, Neighbour(IntAts(a), n))
  {
    r, cache' := Walk(f, cacheOn, t, a, cache);
  }

  /** The walk of `SNoise` in any dimension. */
  method Walk(f: Features, cacheOn: bool, t: seq<int>, a: seq<real>, cache: seq<Slot>)
    returns (r: real, cache': seq<Slot>)
    requires ValidFeatures(f) && ValidTable(t) && |a| >= 1
    requires CacheConsistent(f, |a|, cache)
    ensures r == SparseNoise(f, t, a)
    ensures CacheConsistent(f, |a|, cache')
    ensures forall n :: 0 <= n < |cache'| ==> cache'[n].lastSeed == CellSeed(t, Neighbour(IntAts(a), n))
  {
    r := 0.0;
    cache' := cache;
    var n := 0;
    while n < Pow3(|a|)
      invariant Walked(f, t, a, n, r, cache')
    {
      r, cache' := WalkStep(f, cacheOn, t, a, n, r, cache');
      n := n + 1;
    }
    WalkedAll(f, t, a, n, r, cache');
  }

  /** A finished walk has visited every slot. */
  lemma WalkedAll(f: Features, t: seq<int>, a: seq<real>, n: nat, r: real, c: seq<Slot>)
    requires ValidFeatures(f) && ValidTable(t) && |a| >= 1
    requires Walked(f, t, a, n, r, c) && n >= Pow3(|a|)
    ensures r == SparseNoise(f, t, a)
    ensures CacheConsistent(f, |a|, c)
    ensures forall m :: 0 <= m < |c| ==> c[m].lastSeed == CellSeed(t, Neighbour(IntAts(a), m))
  {
    var total := Pow3(|a|);
    assert n == total;
    assert r == WalkSum(f, t, a, total);
  }

  /** With a kernel that is never negative inside the unit ball, sparse noise
      is never negative. */
  lemma {:induction false} CellSumNonneg(f: Features, ps: seq<seq<real>>, fa: seq<real>)
    requires PointsOfDim(ps, |fa|)
    requires forall x :: 0.0 <= x < 1.0 ==> 0.0 <= f.kernel(x)
    ensures 0.0 <= CellSum(f, ps, fa)
    decreases |ps|
  {
    if |ps| > 0 {
      CellSumNonneg(f, ps[..|ps| - 1], fa);
      var dist := SqDist(ps[|ps| - 1], fa);
      if dist < 1.0 {
        assert 0.0 <= f.kernel(dist);
      }
    }
  }

  lemma {:induction false} WalkSumNonneg(f: Features, t: seq<int>, a: seq<real>, m: nat)
    requires ValidFeatures(f) && ValidTable(t) && |a| >= 1
    requires forall x :: 0.0 <= x < 1.0 ==> 0.0 <= f.kernel(x)
    ensures 0.0 <= WalkSum(f, t, a, m)
    decreases m
  {
    if m > 0 {
      WalkSumNonneg(f, t, a, m - 1);
      var cell := Neighbour(IntAts(a), m - 1);
      CellSumNonneg(f, Points(f, CellSeed(t, cell), |a|), CellOffset(cell, a));
    }
  }

  /** Points at squared distance 1 or more add nothing. */
  lemma {:induction false} FarPointsAddNothing(f: Features, ps: seq<seq<real>>, fa: seq<real>)
    requires PointsOfDim(ps, |fa|)
    requires forall j :: 0 <= j < |ps| ==> 1.0 <= SqDist(ps[j], fa)
    ensures CellSum(f, ps, fa) == 0.0
    decreases |ps|
  {
    if |ps| > 0 {
      FarPointsAddNothing(f, ps[..|ps| - 1], fa);
    }
  }

  /** A cell's feature points depend on its seed only, so two cells whose
      coordinates agree modulo the table size hold the same points. */
  lemma SeedPeriodic(t: seq<int>, cell: seq<int>, cell': seq<int>)
    requires ValidTable(t) && |cell| == |cell'| >= 1
    requires forall k :: 0 <= k < |cell| ==> cell[k] % TABLE_SIZE == cell'[k] % TABLE_SIZE
    ensures CellSeed(t, cell) == CellSeed(t, cell')
  {
    HashChainPeriodic(t, cell, cell');
  }
}
