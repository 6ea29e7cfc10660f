/** Cellular ("Worley") noise in three dimensions: the squared distances to
    the `max_order` nearest feature points, the offsets to them and their ids.

    The feature points of a cell come from its seed exactly as for sparse
    noise, four draws per point (an id and three coordinates). The search
    always visits the point's own cell, then each of the 26 neighbours whose
    nearest possible squared distance is still below the current worst
    distance `F[max_order-1]`. Points closer than that worst distance are
    insertion-sorted into `F`, recycling the evicted entry's slot. */
module Cellular {
  import opened Common
  import opened RandomEngine
  import opened Sparse
  import Interp

  /** The starting value of every `F[i]`. */
  const FAR: real := 999999.9

  predicate Sorted(f: seq<real>) {
    forall i, j :: 0 <= i < j < |f| ==> f[i] <= f[j]
  }

  /** The running search state: `F` ascending, and `order[i]` the slot of
      `delta` and `ID` that belongs to the `i`-th nearest point. */
  datatype Nearest = Nearest(f: seq<real>, order: seq<int>, id: seq<Word>, delta: seq<seq<real>>)

  predicate ValidNearest(s: Nearest) {
    && 1 <= |s.f|
    && |s.order| == |s.f| && |s.id| == |s.f| && |s.delta| == |s.f|
    && Sorted(s.f)
    && forall i :: 0 <= i < |s.order| ==> 0 <= s.order[i] < |s.f|
  }

  /** The state before the search: `F` all `FAR`, `order` the identity.
      `delta` and `ID` are uninitialised in the source; here they are
      whatever the caller passes. */
  function Start(k: nat, id0: seq<Word>, delta0: seq<seq<real>>): (s: Nearest)
    requires 1 <= k && |id0| == k && |delta0| == k
    ensures ValidNearest(s)
    ensures multiset(s.order) == multiset(Iota(k))
  {
    Nearest(seq(k, i => FAR), Iota(k), id0, delta0)
  }

  /** `index = max_order; while (index > 0 && d2 < F[index-1]) index--;` */
  function ScanDown(f: seq<real>, d2: real, index: nat): (r: nat)
    requires index <= |f|
    ensures r <= index
    decreases index
  {
    if index > 0 && d2 < f[index - 1] then ScanDown(f, d2, index - 1) else index
  }

  /** On a sorted `F` the scan stops exactly between the entries not above
      `d2` and the entries above it. */
  lemma {:induction false} ScanDownSplits(f: seq<real>, d2: real, index: nat)
    requires index <= |f| && Sorted(f)
    requires forall i :: index <= i < |f| ==> d2 < f[i]
    ensures forall i :: 0 <= i < ScanDown(f, d2, index) ==> f[i] <= d2
    ensures forall i :: ScanDown(f, d2, index) <= i < |f| ==> d2 < f[i]
    decreases index
  {
    if index > 0 && d2 < f[index - 1] {
      ScanDownSplits(f, d2, index - 1);
    }
  }

  /** `a` without its last element, with `x` placed at `index`. */
  function Splice<T>(a: seq<T>, index: nat, x: T): (b: seq<T>)
    requires index < |a|
    ensures |b| == |a|
  {
    a[..index] + [x] + a[index..|a| - 1]
  }

  /** Inserting a point at squared distance `d2 < F[max_order-1]`: the worst
      entry drops out, `d2` goes to its sorted place, and the dropped entry's
      slot is reused for the new id and offset. */
  function Insert(s: Nearest, d2: real, thisId: Word, dv: seq<real>): Nearest
    requires ValidNearest(s) && d2 < s.f[|s.f| - 1]
  {
    var k := |s.f|;
    var index := ScanDown(s.f, d2, k);
    var slot := s.order[k - 1];
    Nearest(Splice(s.f, index, d2),
            Splice(s.order, index, slot),
            s.id[slot := thisId],
            s.delta[slot := dv])
  }

  /** `F` stays sorted, keeps its length, and the slots stay in range. */
  lemma InsertValid(s: Nearest, d2: real, thisId: Word, dv: seq<real>)
    requires ValidNearest(s) && d2 < s.f[|s.f| - 1]
    ensures ValidNearest(Insert(s, d2, thisId, dv))
  {
    var k := |s.f|;
    ScanDownSplits(s.f, d2, k);
    var index := ScanDown(s.f, d2, k);
    var slot := s.order[k - 1];
    var s' := Insert(s, d2, thisId, dv);
    assert s'.f == Splice(s.f, index, d2) && s'.order == Splice(s.order, index, slot);
    forall i, j | 0 <= i < j < k
      ensures s'.f[i] <= s'.f[j]
    {
      SpliceAt(s.f, index, d2, i);
      SpliceAt(s.f, index, d2, j);
    }
    forall i | 0 <= i < k
      ensures 0 <= s'.order[i] < k
    {
      SpliceAt(s.order, index, slot, i);
    }
  }

  /** The new distances are the old ones with the worst replaced by `d2`. */
  lemma InsertContents(s: Nearest, d2: real, thisId: Word, dv: seq<real>)
    requires ValidNearest(s) && d2 < s.f[|s.f| - 1]
    ensures multiset(Insert(s, d2, thisId, dv).f) + multiset{s.f[|s.f| - 1]} == multiset(s.f) + multiset{d2}
  {
    var index := ScanDown(s.f, d2, |s.f|);
    assert Insert(s, d2, thisId, dv).f == Splice(s.f, index, d2);
    SpliceContents(s.f, index, d2);
  }

  /** `order` is rearranged, never changed in content. */
  lemma InsertPermutesOrder(s: Nearest, d2: real, thisId: Word, dv: seq<real>)
    requires ValidNearest(s) && d2 < s.f[|s.f| - 1]
    ensures multiset(Insert(s, d2, thisId, dv).order) == multiset(s.order)
  {
    var index := ScanDown(s.f, d2, |s.f|);
    ScanDownBelow(s.f, d2);
    var o' := Insert(s, d2, thisId, dv).order;
    assert o' == Splice(s.order, index, s.order[|s.f| - 1]);
    SpliceLast(s.order, index);
  }

  /** No distance kept after the insertion exceeds the one that dropped out. */
  lemma InsertBelowWorst(s: Nearest, d2: real, thisId: Word, dv: seq<real>)
    requires ValidNearest(s) && d2 < s.f[|s.f| - 1]
    ensures forall i :: 0 <= i < |s.f| ==> Insert(s, d2, thisId, dv).f[i] <= s.f[|s.f| - 1]
  {
    var k := |s.f|;
    var index := ScanDown(s.f, d2, k);
    var f' := Insert(s, d2, thisId, dv).f;
    assert forall i :: 0 <= i < index ==> f'[i] == s.f[i];
    assert forall i :: index < i < k ==> f'[i] == s.f[i - 1];
  }

  /** Dropping the last element and placing `x` at `index`. */
  lemma SpliceContents<T>(a: seq<T>, index: nat, x: T)
    requires index < |a|
    ensures multiset(Splice(a, index, x)) + multiset{a[|a| - 1]} == multiset(a) + multiset{x}
  {
    var k := |a|;
    assert a == a[..index] + a[index..k - 1] + [a[k - 1]];
  }

  /** Entry `m` of a splice: the old entry before `index`, `x` at it, and
      the entry one place back after it. */
  lemma SpliceAt<T>(a: seq<T>, index: nat, x: T, m: nat)
    requires index < |a| && m < |a|
    ensures m < index ==> Splice(a, index, x)[m] == a[m]
    ensures m == index ==> Splice(a, index, x)[m] == x
    ensures index < m ==> Splice(a, index, x)[m] == a[m - 1]
  {
  }

  /** Moving the last element to `index`. */
  lemma SpliceLast<T>(a: seq<T>, index: nat)
    requires index < |a|
    ensures multiset(Splice(a, index, a[|a| - 1])) == multiset(a)
  {
    var k := |a|;
    assert a == a[..index] + a[index..k - 1] + [a[k - 1]];
  }

  /** The new point sits at its sorted place, holding its own id and offset. */
  lemma InsertPlaces(s: Nearest, d2: real, thisId: Word, dv: seq<real>)
    requires ValidNearest(s) && d2 < s.f[|s.f| - 1]
    ensures var s' := Insert(s, d2, thisId, dv);
            var index := ScanDown(s.f, d2, |s.f|);
            && index < |s.f| && s'.f[index] == d2
            && s'.id[s'.order[index]] == thisId && s'.delta[s'.order[index]] == dv
            && (forall i :: 0 <= i < index ==> s.f[i] <= d2)
            && (forall i :: index <= i < |s.f| ==> d2 < s.f[i])
  {
    ScanDownSplits(s.f, d2, |s.f|);
  }

  /** The insertion as `AddSamples_3D` performs it in place: the scan for
      `index`, the shift `F[i+1] = F[i]` from the back, then the store. */
  method InsertSample(s: Nearest, d2: real, thisId: Word, dv: seq<real>) returns (s': Nearest)
    requires ValidNearest(s) && d2 < s.f[|s.f| - 1]
    ensures s' == Insert(s, d2, thisId, dv)
  {
    var k := |s.f|;
    var index := ScanIndex(s.f, d2);
    var slot := s.order[k - 1];
    var f, order := ShiftDown(s.f, s.order, index, d2, slot);
    s' := Nearest(f, order, s.id[slot := thisId], s.delta[slot := dv]);
  }

  /** `index = max_order; while (index > 0 && d2 < F[index-1]) index--;` */
  method ScanIndex(f: seq<real>, d2: real) returns (index: nat)
    requires 1 <= |f| && d2 < f[|f| - 1]
    ensures index == ScanDown(f, d2, |f|) && index < |f|
  {
    index := |f|;
    while index > 0 && d2 < f[index - 1]
      invariant 0 <= index <= |f|
      invariant ScanDown(f, d2, index) == ScanDown(f, d2, |f|)
    {
      index := index - 1;
    }
  }

  /** `while ((i--) > index) { F[i+1] = F[i]; order[i+1] = order[i]; }`
      with `i` starting at `max_order - 1`, then `F[index] = d2` and
      `order[index] = slot`. */
  method ShiftDown(f0: seq<real>, order0: seq<int>, index: nat, d2: real, slot: int)
    returns (f: seq<real>, order: seq<int>)
    requires index < |f0| == |order0|
    ensures f == Splice(f0, index, d2) && order == Splice(order0, index, slot)
  {
    var k := |f0|;
    f, order := f0, order0;
    var i := k - 1;
    while i > index
      invariant index <= i <= k - 1
      invariant |f| == k && |order| == k
      invariant forall m :: 0 <= m <= i ==> f[m] == f0[m] && order[m] == order0[m]
      invariant forall m :: i < m < k ==> f[m] == f0[m - 1] && order[m] == order0[m - 1]
    {
      i := i - 1;
      f := f[i + 1 := f[i]];
      order := order[i + 1 := order[i]];
    }
    f := f[index := d2];
    order := order[index := slot];
    SpliceIs(f0, index, d2, f);
    SpliceIs(order0, index, slot, order);
  }

  /** A sequence that agrees with `a` before `index`, holds `x` at `index`
      and `a` shifted one place after it is the splice of `Insert`. */
  lemma SpliceIs<T>(a: seq<T>, index: nat, x: T, b: seq<T>)
    requires index < |a| == |b|
    requires forall m :: 0 <= m < index ==> b[m] == a[m]
    requires b[index] == x
    requires forall m :: index < m < |a| ==> b[m] == a[m - 1]
    ensures b == Splice(a, index, x)
  {
  }

  /** A feature point: its id (the draw before its coordinates) and its
      coordinates inside the cell. */
  datatype Feature = Feature(id: Word, p: seq<real>)

  /** The points of a cell with seed `seed`: one draw, then per point the id,
      three coordinate draws and one more draw. */
  function CellFeatures(f: Features, seed: Word): (fs: seq<Feature>)
    requires ValidFeatures(f)
    ensures |fs| == Count(f, seed)
  {
    seq(Count(f, seed), j requires 0 <= j < Count(f, seed) =>
      Feature(Iterate(f.next, seed, 4 * j + 1),
              seq(3, k requires 0 <= k < 3 => UnitCoord(Iterate(f.next, seed, 4 * j + k + 2)))))
  }

  predicate Features3(fs: seq<Feature>) {
    forall j :: 0 <= j < |fs| ==> |fs[j].p| == 3
  }

  lemma CellFeatures3(f: Features, seed: Word)
    requires ValidFeatures(f)
    ensures Features3(CellFeatures(f, seed))
    ensures forall j, k :: 0 <= j < Count(f, seed) && 0 <= k < 3 ==> 0.0 < CellFeatures(f, seed)[j].p[k] < 1.0
  {
    forall j, k | 0 <= j < Count(f, seed) && 0 <= k < 3
      ensures 0.0 < CellFeatures(f, seed)[j].p[k] < 1.0
    {
      assert CellFeatures(f, seed)[j].p[k] == UnitCoord(Iterate(f.next, seed, 4 * j + k + 2));
    }
  }

  /** `(dx, dy, dz)`: from the search point to a feature point. */
  function Displacement(p: seq<real>, fa: seq<real>): (dv: seq<real>)
    requires |p| == |fa|
    ensures |dv| == |fa|
  {
    seq(|fa|, k requires 0 <= k < |fa| => p[k] + fa[k])
  }

  /** One feature point: inserted only if `d2 < F[max_order-1]`. */
  function Consider(s: Nearest, fa: seq<real>, ft: Feature): (s': Nearest)
    requires ValidNearest(s) && |ft.p| == |fa|
    ensures ValidNearest(s')
  {
    var d2 := SqDist(ft.p, fa);
    if d2 < s.f[|s.f| - 1] then
      InsertValid(s, d2, ft.id, Displacement(ft.p, fa));
      Insert(s, d2, ft.id, Displacement(ft.p, fa))
    else s
  }

  /** All points of one cell, in drawing order. */
  function AddSamples(s: Nearest, fa: seq<real>, fs: seq<Feature>): (s': Nearest)
    requires ValidNearest(s) && |fa| == 3 && Features3(fs)
    ensures ValidNearest(s')
    decreases |fs|
  {
    if |fs| == 0 then s else AddSamples(Consider(s, fa, fs[0]), fa, fs[1..])
  }

  /** A point is never worse than the worst distance after it was considered. */
  lemma ConsiderLowersWorst(s: Nearest, fa: seq<real>, ft: Feature)
    requires ValidNearest(s) && |ft.p| == |fa|
    ensures Consider(s, fa, ft).f[|s.f| - 1] <= s.f[|s.f| - 1]
    ensures |Consider(s, fa, ft).f| == |s.f|
  {
    var d2 := SqDist(ft.p, fa);
    if d2 < s.f[|s.f| - 1] {
      InsertBelowWorst(s, d2, ft.id, Displacement(ft.p, fa));
    }
  }

  /** Points no closer than the current worst distance change nothing. */
  lemma {:induction false} FarSamplesChangeNothing(s: Nearest, fa: seq<real>, fs: seq<Feature>)
    requires ValidNearest(s) && |fa| == 3 && Features3(fs)
    requires forall j :: 0 <= j < |fs| ==> s.f[|s.f| - 1] <= SqDist(fs[j].p, fa)
    ensures AddSamples(s, fa, fs) == s
    decreases |fs|
  {
    if |fs| > 0 {
      assert Consider(s, fa, fs[0]) == s;
      FarSamplesChangeNothing(s, fa, fs[1..]);
      assert AddSamples(s, fa, fs) == AddSamples(s, fa, fs[1..]);
    }
  }

  /** Every point the source's loop would insert in place, one at a time. */
  method AddSamplesLoop(s: Nearest, fa: seq<real>, fs: seq<Feature>) returns (s': Nearest)
    requires ValidNearest(s) && |fa| == 3 && Features3(fs)
    ensures s' == AddSamples(s, fa, fs)
  {
    s' := s;
    var j := 0;
    while j < |fs|
      invariant 0 <= j <= |fs|
      invariant ValidNearest(s')
      invariant AddSamples(s', fa, fs[j..]) == AddSamples(s, fa, fs)
    {
      var ft := fs[j];
      assert fs[j..][0] == ft && fs[j..][1..] == fs[j + 1..];
      var next := Consider(s', fa, ft);
      assert AddSamples(s', fa, fs[j..]) == AddSamples(next, fa, fs[j + 1..]);
      var d2 := SqDist(ft.p, fa);
      if d2 < s'.f[|s'.f| - 1] {
        s' := InsertSample(s', d2, ft.id, Displacement(ft.p, fa));
      }
      assert s' == next;
      j := j + 1;
    }
  }

  /** The 27 cells in the order `Cells3D` visits them (x, y, z offsets): the
      point's own cell, the six faces, the twelve edges, the eight corners. */
  const VISITS: seq<seq<int>> := [
    [0, 0, 0],
    [1, 0, 0], [0, 1, 0], [0, 0, 1], [0, 0, -1], [0, -1, 0], [-1, 0, 0],
    [1, 1, 0], [1, 0, 1], [1, 0, -1], [1, -1, 0], [0, 1, 1], [0, 1, -1],
    [0, -1, 1], [0, -1, -1], [-1, 1, 0], [-1, 0, 1], [-1, 0, -1], [-1, -1, 0],
    [1, 1, 1], [1, 1, -1], [1, -1, 1], [1, -1, -1],
    [-1, 1, 1], [-1, 1, -1], [-1, -1, 1], [-1, -1, -1]]

  /** For each slot of the sparse-noise ordering (axis 0 fastest), the visit
      that reaches that neighbour. */
  const VISIT_OF_SLOT: seq<nat> := [
    26, 14, 22, 17, 4, 9, 24, 12, 20,
    18, 5, 10, 6, 0, 1, 15, 2, 7,
    25, 13, 21, 16, 3, 8, 23, 11, 19]

  lemma VisitsAreOffsets()
    ensures |VISITS| == 27
    ensures forall n :: 0 <= n < 27 ==> |VISITS[n]| == 3 && UnitOffsets(VISITS[n])
  {
  }

  lemma Offsets3(m: nat)
    ensures Offsets(m, 3) == [m % 3 - 1, m / 3 % 3 - 1, m / 3 / 3 % 3 - 1]
  {
    assert Offsets(m, 3) == [m % 3 - 1] + Offsets(m / 3, 2);
    assert Offsets(m / 3, 2) == [m / 3 % 3 - 1] + Offsets(m / 3 / 3, 1);
    assert Offsets(m / 3 / 3, 1) == [m / 3 / 3 % 3 - 1] + Offsets(m / 3 / 3 / 3, 0);
  }

  lemma VisitOfSlot(m: nat)
    requires m < 27
    ensures VISIT_OF_SLOT[m] < 27 && VISITS[VISIT_OF_SLOT[m]] == Offsets(m, 3)
  {
    Offsets3(m);
    if m < 9 {
      VisitOfSlotLow(m);
    } else if m < 18 {
      VisitOfSlotMid(m);
    } else {
      VisitOfSlotHigh(m);
    }
  }

  lemma VisitOfSlotLow(m: nat)
    requires m < 9
    ensures VISIT_OF_SLOT[m] < 27 && VISITS[VISIT_OF_SLOT[m]] == [m % 3 - 1, m / 3 % 3 - 1, m / 3 / 3 % 3 - 1]
  {
    assert m == 0 || m == 1 || m == 2 || m == 3 || m == 4 || m == 5 || m == 6 || m == 7 || m == 8;
  }

  lemma VisitOfSlotMid(m: nat)
    requires 9 <= m < 18
    ensures VISIT_OF_SLOT[m] < 27 && VISITS[VISIT_OF_SLOT[m]] == [m % 3 - 1, m / 3 % 3 - 1, m / 3 / 3 % 3 - 1]
  {
    assert m == 9 || m == 10 || m == 11 || m == 12 || m == 13 || m == 14 || m == 15 || m == 16 || m == 17;
  }

  lemma VisitOfSlotHigh(m: nat)
    requires 18 <= m < 27
    ensures VISIT_OF_SLOT[m] < 27 && VISITS[VISIT_OF_SLOT[m]] == [m % 3 - 1, m / 3 % 3 - 1, m / 3 / 3 % 3 - 1]
  {
    assert m == 18 || m == 19 || m == 20 || m == 21 || m == 22 || m == 23 || m == 24 || m == 25 || m == 26;
  }

  /** Every offset in {-1, 0, 1}^3 is one of the 27 visits. */
  lemma VisitsCoverNeighbourhood(o: seq<int>)
    requires |o| == 3 && UnitOffsets(o)
    ensures exists n :: 0 <= n < 27 && VISITS[n] == o
  {
    OffsetsOfSlot(o);
    assert Pow3(3) == 27;
    var m := SlotIndex(o);
    VisitOfSlot(m);
    assert VISITS[VISIT_OF_SLOT[m]] == o;
  }

  /** `pa = (1 - ma)^2` towards the upper neighbour, `ma^2` towards the
      lower one, nothing within the own cell. */
  function AxisBound(o: int, ma: real): real {
    if o == 1 then (1.0 - ma) * (1.0 - ma) else if o == -1 then ma * ma else 0.0
  }

  /** The pruning test's left-hand side for visit offsets `o`. */
  function LowerBound(o: seq<int>, ma: seq<real>): real
    requires |o| == 3 && |ma| == 3
  {
    AxisBound(o[0], ma[0]) + AxisBound(o[1], ma[1]) + AxisBound(o[2], ma[2])
  }

  /** `ma = new_at - int_at`, which lies in [0, 1]. */
  function CellFraction(at: seq<real>): (ma: seq<real>)
    ensures |ma| == |at|
    ensures forall k :: 0 <= k < |at| ==> 0.0 <= ma[k] <= 1.0
  {
    seq(|at|, k requires 0 <= k < |at| => at[k] - IntAt(at[k]) as real)
  }

  lemma SquareMono(x: real, y: real)
    requires 0.0 <= x <= y
    ensures x * x <= y * y
  {
    assert y * y - x * x == (y - x) * (y + x);
    Interp.MulNonneg(y - x, y + x);
  }

  /** Along one axis a point inside the visited cell is at least as far as
      the bound says: `x` is the corner offset `o - ma`. */
  lemma AxisBoundBelow(o: int, ma: real, p: real, x: real)
    requires -1 <= o <= 1 && 0.0 <= ma <= 1.0 && 0.0 < p < 1.0 && x == o as real - ma
    ensures AxisBound(o, ma) <= Square(p + x)
  {
    var d := p + x;
    if o == 1 {
      SquareMono(1.0 - ma, d);
    } else if o == -1 {
      SquareMono(ma, -d);
      assert (-d) * (-d) == d * d;
    } else {
      SquareNonneg(d);
    }
  }

  function Square(x: real): real {
    x * x
  }

  lemma SqDist3(p: seq<real>, fa: seq<real>)
    requires |p| == 3 && |fa| == 3
    ensures SqDist(p, fa) == Square(p[0] + fa[0]) + Square(p[1] + fa[1]) + Square(p[2] + fa[2])
  {
    var p2, f2 := p[..2], fa[..2];
    var p1, f1 := p2[..1], f2[..1];
    assert SqDist(p1[..0], f1[..0]) == 0.0;
    assert SqDist(p1, f1) == (p[0] + fa[0]) * (p[0] + fa[0]);
    assert SqDist(p2, f2) == SqDist(p1, f1) + (p[1] + fa[1]) * (p[1] + fa[1]);
  }

  /** The cell at offsets `o` from cell `ia`. */
  function NeighbourCell(ia: seq<int>, o: seq<int>): (cell: seq<int>)
    requires |ia| == 3 && |o| == 3
    ensures |cell| == 3
  {
    [ia[0] + o[0], ia[1] + o[1], ia[2] + o[2]]
  }

  function VisitCell(ia: seq<int>, n: nat): (cell: seq<int>)
    requires |ia| == 3 && n < 27
    ensures |cell| == 3
  {
    NeighbourCell(ia, VISITS[n])
  }

  lemma AxesBelow(o0: int, o1: int, o2: int, m0: real, m1: real, m2: real,
                  p0: real, p1: real, p2: real, x0: real, x1: real, x2: real)
    requires -1 <= o0 <= 1 && 0.0 <= m0 <= 1.0 && 0.0 < p0 < 1.0 && x0 == o0 as real - m0
    requires -1 <= o1 <= 1 && 0.0 <= m1 <= 1.0 && 0.0 < p1 < 1.0 && x1 == o1 as real - m1
    requires -1 <= o2 <= 1 && 0.0 <= m2 <= 1.0 && 0.0 < p2 < 1.0 && x2 == o2 as real - m2
    ensures AxisBound(o0, m0) + AxisBound(o1, m1) + AxisBound(o2, m2)
            <= Square(p0 + x0) + Square(p1 + x1) + Square(p2 + x2)
  {
    AxisBoundBelow(o0, m0, p0, x0);
    AxisBoundBelow(o1, m1, p1, x1);
    AxisBoundBelow(o2, m2, p2, x2);
  }

  /** The offset of the visited cell's corner from the search point. */
  function VisitOffset(ia: seq<int>, at: seq<real>, n: nat): (fa: seq<real>)
    requires |ia| == 3 && |at| == 3 && n < 27
    ensures |fa| == 3
  {
    CellOffset(VisitCell(ia, n), at)
  }

  /** The corner offset of the cell at offsets `o` is `o - ma`. */
  lemma NeighbourOffsetFraction(at: seq<real>, o: seq<int>)
    requires |at| == 3 && |o| == 3
    ensures forall k :: 0 <= k < 3 ==> CellOffset(NeighbourCell(IntAts(at), o), at)[k] == o[k] as real - CellFraction(at)[k]
  {
    var ia := IntAts(at);
    forall k | 0 <= k < 3
      ensures CellOffset(NeighbourCell(ia, o), at)[k] == o[k] as real - CellFraction(at)[k]
    {
      assert CellOffset(NeighbourCell(ia, o), at)[k] == (ia[k] + o[k]) as real - at[k];
    }
  }

  /** No point of the cell at offsets `o` is closer than the bound for `o`. */
  lemma LowerBoundSound(at: seq<real>, o: seq<int>, p: seq<real>)
    requires |at| == 3 && |o| == 3 && UnitOffsets(o)
    requires |p| == 3 && forall k :: 0 <= k < 3 ==> 0.0 < p[k] < 1.0
    ensures LowerBound(o, CellFraction(at)) <= SqDist(p, CellOffset(NeighbourCell(IntAts(at), o), at))
  {
    var ma := CellFraction(at);
    var fa := CellOffset(NeighbourCell(IntAts(at), o), at);
    assert LowerBound(o, ma) <= Square(p[0] + fa[0]) + Square(p[1] + fa[1]) + Square(p[2] + fa[2]) by {
      NeighbourOffsetFraction(at, o);
      AxesBelow(o[0], o[1], o[2], ma[0], ma[1], ma[2], p[0], p[1], p[2], fa[0], fa[1], fa[2]);
    }
    SqDist3(p, fa);
  }

  /** The seed of a visited cell: `Hash3(xi, yi, zi)`. */
  function VisitSeed(t: seq<int>, ia: seq<int>, n: nat): Word
    requires ValidTable(t) && |ia| == 3 && n < 27
  {
    CellSeed(t, VisitCell(ia, n))
  }

  /** Whether visit `n` takes place: `bound < *f_max` for the neighbours,
      always for the own cell, and always when the test is switched off. */
  predicate VisitTest(at: seq<real>, prune: bool, s: Nearest, n: nat)
    requires |at| == 3 && ValidNearest(s) && n < 27
  {
    n == 0 || !prune || LowerBound(VISITS[n], CellFraction(at)) < s.f[|s.f| - 1]
  }

  /** Visit `n` of the search. With `prune` the neighbour test of `Cells3D`
      applies (the own cell is always visited); without it every cell is. */
  function Visited(f: Features, t: seq<int>, at: seq<real>, prune: bool, s: Nearest, n: nat): (s': Nearest)
    requires ValidFeatures(f) && ValidTable(t) && |at| == 3 && ValidNearest(s) && n < 27
    ensures ValidNearest(s') && |s'.f| == |s.f|
  {
    var ia := IntAts(at);
    var seed := VisitSeed(t, ia, n);
    CellFeatures3(f, seed);
    if VisitTest(at, prune, s, n) then
      AddSamplesKeepsSize(s, VisitOffset(ia, at, n), CellFeatures(f, seed));
      AddSamples(s, VisitOffset(ia, at, n), CellFeatures(f, seed))
    else s
  }

  /** The search from visit `n` on. */
  function SearchFrom(f: Features, t: seq<int>, at: seq<real>, prune: bool, s: Nearest, n: nat): (s': Nearest)
    requires ValidFeatures(f) && ValidTable(t) && |at| == 3 && ValidNearest(s) && n <= 27
    ensures ValidNearest(s') && |s'.f| == |s.f|
    decreases 27 - n
  {
    if n == 27 then s else SearchFrom(f, t, at, prune, Visited(f, t, at, prune, s, n), n + 1)
  }

  lemma SearchStep(f: Features, t: seq<int>, at: seq<real>, prune: bool, s: Nearest, n: nat)
    requires ValidFeatures(f) && ValidTable(t) && |at| == 3 && ValidNearest(s) && n < 27
    ensures SearchFrom(f, t, at, prune, s, n) == SearchFrom(f, t, at, prune, Visited(f, t, at, prune, s, n), n + 1)
  {
  }

  lemma {:induction false} AddSamplesKeepsSize(s: Nearest, fa: seq<real>, fs: seq<Feature>)
    requires ValidNearest(s) && |fa| == 3 && Features3(fs)
    ensures |AddSamples(s, fa, fs).f| == |s.f|
    decreases |fs|
  {
    if |fs| > 0 {
      ConsiderLowersWorst(s, fa, fs[0]);
      AddSamplesKeepsSize(Consider(s, fa, fs[0]), fa, fs[1..]);
    }
  }

  /** A skipped neighbour could not have changed anything. */
  lemma PrunedVisitIsExact(f: Features, t: seq<int>, at: seq<real>, s: Nearest, n: nat)
    requires ValidFeatures(f) && ValidTable(t) && |at| == 3 && ValidNearest(s) && n < 27
    ensures Visited(f, t, at, true, s, n) == Visited(f, t, at, false, s, n)
  {
    var ia := IntAts(at);
    var seed := VisitSeed(t, ia, n);
    var fs := CellFeatures(f, seed);
    CellFeatures3(f, seed);
    var fa := VisitOffset(ia, at, n);
    VisitsAreOffsets();
    if !VisitTest(at, true, s, n) {
      forall j | 0 <= j < |fs|
        ensures s.f[|s.f| - 1] <= SqDist(fs[j].p, fa)
      {
        LowerBoundSound(at, VISITS[n], fs[j].p);
      }
      FarSamplesChangeNothing(s, fa, fs);
    }
  }

  /** The pruning never loses a point: skipping the cells whose lower bound
      is not below the current worst distance gives exactly the result of
      visiting all 27. */
  lemma {:induction false} PruningIsExact(f: Features, t: seq<int>, at: seq<real>, s: Nearest, n: nat)
    requires ValidFeatures(f) && ValidTable(t) && |at| == 3 && ValidNearest(s) && n <= 27
    ensures SearchFrom(f, t, at, true, s, n) == SearchFrom(f, t, at, false, s, n)
    decreases 27 - n
  {
    if n < 27 {
      PrunedVisitIsExact(f, t, at, s, n);
      SearchStep(f, t, at, true, s, n);
      SearchStep(f, t, at, false, s, n);
      PruningIsExact(f, t, at, Visited(f, t, at, false, s, n), n + 1);
    }
  }

  /** `d2` is accounted for: either it is among the distances kept, or it is
      no closer than the worst of them. */
  predicate Kept(s: Nearest, d2: real)
    requires ValidNearest(s)
  {
    s.f[|s.f| - 1] <= d2 || d2 in s.f
  }

  /** Considering a point keeps it and everything kept before. */
  lemma ConsiderKeeps(s: Nearest, fa: seq<real>, ft: Feature, d2: real)
    requires ValidNearest(s) && |ft.p| == |fa|
    ensures Kept(Consider(s, fa, ft), SqDist(ft.p, fa))
    ensures Kept(s, d2) ==> Kept(Consider(s, fa, ft), d2)
  {
    var x := SqDist(ft.p, fa);
    if x < s.f[|s.f| - 1] {
      var dv := Displacement(ft.p, fa);
      assert Consider(s, fa, ft) == Insert(s, x, ft.id, dv);
      InsertKeeps(s, x, ft.id, dv, d2);
    }
  }

  lemma InsertKeeps(s: Nearest, x: real, thisId: Word, dv: seq<real>, d2: real)
    requires ValidNearest(s) && x < s.f[|s.f| - 1]
    ensures ValidNearest(Insert(s, x, thisId, dv))
    ensures x in Insert(s, x, thisId, dv).f
    ensures Kept(s, d2) ==> Kept(Insert(s, x, thisId, dv), d2)
  {
    InsertValid(s, x, thisId, dv);
    InsertPlaces(s, x, thisId, dv);
    var w := s.f[|s.f| - 1];
    var f' := Insert(s, x, thisId, dv).f;
    if d2 in s.f && d2 != w {
      InsertContents(s, x, thisId, dv);
      assert d2 in multiset(s.f) + multiset{x};
      assert d2 in multiset(f');
    } else if w <= d2 {
      InsertBelowWorst(s, x, thisId, dv);
      assert f'[|f'| - 1] <= w;
    }
  }

  lemma {:induction false} AddSamplesKeeps(s: Nearest, fa: seq<real>, fs: seq<Feature>, d2: real)
    requires ValidNearest(s) && |fa| == 3 && Features3(fs)
    ensures Kept(s, d2) ==> Kept(AddSamples(s, fa, fs), d2)
    decreases |fs|
  {
    if |fs| > 0 {
      ConsiderKeeps(s, fa, fs[0], d2);
      AddSamplesKeeps(Consider(s, fa, fs[0]), fa, fs[1..], d2);
    }
  }

  /** After a cell's points have been considered, each of them is kept. */
  lemma {:induction false} AddSamplesFinds(s: Nearest, fa: seq<real>, fs: seq<Feature>, j: nat)
    requires ValidNearest(s) && |fa| == 3 && Features3(fs) && j < |fs|
    ensures Kept(AddSamples(s, fa, fs), SqDist(fs[j].p, fa))
    decreases |fs|
  {
    var s1 := Consider(s, fa, fs[0]);
    if j == 0 {
      ConsiderKeeps(s, fa, fs[0], 0.0);
      AddSamplesKeeps(s1, fa, fs[1..], SqDist(fs[0].p, fa));
    } else {
      AddSamplesFinds(s1, fa, fs[1..], j - 1);
    }
  }

  lemma {:induction false} SearchKeeps(f: Features, t: seq<int>, at: seq<real>, s: Nearest, n: nat, d2: real)
    requires ValidFeatures(f) && ValidTable(t) && |at| == 3 && ValidNearest(s) && n <= 27
    requires Kept(s, d2)
    ensures Kept(SearchFrom(f, t, at, false, s, n), d2)
    decreases 27 - n
  {
    if n < 27 {
      var s1 := Visited(f, t, at, false, s, n);
      SearchStep(f, t, at, false, s, n);
      VisitKeeps(f, t, at, s, n, d2);
      SearchKeeps(f, t, at, s1, n + 1, d2);
    }
  }

  lemma VisitKeeps(f: Features, t: seq<int>, at: seq<real>, s: Nearest, n: nat, d2: real)
    requires ValidFeatures(f) && ValidTable(t) && |at| == 3 && ValidNearest(s) && n < 27
    requires Kept(s, d2)
    ensures Kept(Visited(f, t, at, false, s, n), d2)
  {
    var ia := IntAts(at);
    CellFeatures3(f, VisitSeed(t, ia, n));
    AddSamplesKeeps(s, VisitOffset(ia, at, n), CellFeatures(f, VisitSeed(t, ia, n)), d2);
  }

  /** The squared distance to point `j` of visit `m`. */
  function VisitDist(f: Features, t: seq<int>, at: seq<real>, m: nat, j: nat): real
    requires ValidFeatures(f) && ValidTable(t) && |at| == 3 && m < 27
    requires j < Count(f, VisitSeed(t, IntAts(at), m))
  {
    var ia := IntAts(at);
    CellFeatures3(f, VisitSeed(t, ia, m));
    SqDist(CellFeatures(f, VisitSeed(t, ia, m))[j].p, VisitOffset(ia, at, m))
  }

  /** After visit `m`, each of its points is kept to the end. */
  lemma VisitFinds(f: Features, t: seq<int>, at: seq<real>, s: Nearest, m: nat, j: nat)
    requires ValidFeatures(f) && ValidTable(t) && |at| == 3 && ValidNearest(s) && m < 27
    requires j < Count(f, VisitSeed(t, IntAts(at), m))
    ensures Kept(SearchFrom(f, t, at, false, Visited(f, t, at, false, s, m), m + 1), VisitDist(f, t, at, m, j))
  {
    var ia := IntAts(at);
    var fs := CellFeatures(f, VisitSeed(t, ia, m));
    CellFeatures3(f, VisitSeed(t, ia, m));
    AddSamplesFinds(s, VisitOffset(ia, at, m), fs, j);
    SearchKeeps(f, t, at, Visited(f, t, at, false, s, m), m + 1, VisitDist(f, t, at, m, j));
  }

  lemma {:induction false} SearchFinds(f: Features, t: seq<int>, at: seq<real>, s: Nearest, n: nat, m: nat, j: nat)
    requires ValidFeatures(f) && ValidTable(t) && |at| == 3 && ValidNearest(s) && n <= m < 27
    requires j < Count(f, VisitSeed(t, IntAts(at), m))
    ensures Kept(SearchFrom(f, t, at, false, s, n), VisitDist(f, t, at, m, j))
    decreases 27 - n
  {
    var s1 := Visited(f, t, at, false, s, n);
    SearchStep(f, t, at, false, s, n);
    if n == m {
      VisitFinds(f, t, at, s, m, j);
    } else {
      SearchFinds(f, t, at, s1, n + 1, m, j);
    }
  }

  /** What `Cells3D` hands back, nearest first: the distance, the offset and
      the id, the last two looked up through `order`. */
  datatype CellResult = CellResult(f: seq<real>, delta: seq<seq<real>>, id: seq<Word>)

  function Output(s: Nearest, sqrt: real -> real): (r: CellResult)
    requires ValidNearest(s)
    ensures |r.f| == |r.delta| == |r.id| == |s.f|
    ensures forall i :: 0 <= i < |s.f| ==>
              && r.f[i] == sqrt(Entries(s)[i].d2)
              && r.id[i] == Entries(s)[i].id
              && r.delta[i] == Entries(s)[i].delta
  {
    CellResult(seq(|s.f|, i requires 0 <= i < |s.f| => sqrt(s.f[i])),
               seq(|s.f|, i requires 0 <= i < |s.f| => s.delta[s.order[i]]),
               seq(|s.f|, i requires 0 <= i < |s.f| => s.id[s.order[i]]))
  }

  /** The squared distances `Cells3D` ends with, before the square root. */
  function Search(f: Features, t: seq<int>, at: seq<real>, k: nat,
                  id0: seq<Word>, delta0: seq<seq<real>>): (s: Nearest)
    requires ValidFeatures(f) && ValidTable(t) && |at| == 3
    requires 1 <= k && |id0| == k && |delta0| == k
    ensures ValidNearest(s) && |s.f| == k
  {
    SearchFrom(f, t, at, true, Start(k, id0, delta0), 0)
  }

  /** `Cells3D` without its cache. */
  function Cells3D(f: Features, t: seq<int>, sqrt: real -> real, at: seq<real>, k: nat,
                   id0: seq<Word>, delta0: seq<seq<real>>): CellResult
    requires ValidFeatures(f) && ValidTable(t) && |at| == 3
    requires 1 <= k && |id0| == k && |delta0| == k
  {
    Output(Search(f, t, at, k, id0, delta0), sqrt)
  }

  /** The search finds the nearest points: the squared distance to any point
      of any of the 27 cells around `at` is either among the `k` kept, or no
      closer than the `k`-th. */
  lemma NearestAreFound(f: Features, t: seq<int>, at: seq<real>, k: nat,
                        id0: seq<Word>, delta0: seq<seq<real>>, m: nat, j: nat)
    requires ValidFeatures(f) && ValidTable(t) && |at| == 3
    requires 1 <= k && |id0| == k && |delta0| == k
    requires m < 27 && j < Count(f, VisitSeed(t, IntAts(at), m))
    ensures Kept(Search(f, t, at, k, id0, delta0), VisitDist(f, t, at, m, j))
  {
    PruningIsExact(f, t, at, Start(k, id0, delta0), 0);
    SearchFinds(f, t, at, Start(k, id0, delta0), 0, m, j);
  }

  /** With a non-decreasing square root the distances come out nearest
      first: `F1 <= F2 <= ...`. */
  lemma NearestFirst(f: Features, t: seq<int>, sqrt: real -> real, at: seq<real>, k: nat,
                     id0: seq<Word>, delta0: seq<seq<real>>)
    requires ValidFeatures(f) && ValidTable(t) && |at| == 3
    requires 1 <= k && |id0| == k && |delta0| == k
    requires forall x, y :: x <= y ==> sqrt(x) <= sqrt(y)
    ensures Sorted(Cells3D(f, t, sqrt, at, k, id0, delta0).f)
  {
    var s := Search(f, t, at, k, id0, delta0);
    var r := Output(s, sqrt);
    forall i, j | 0 <= i < j < k
      ensures r.f[i] <= r.f[j]
    {
      assert s.f[i] <= s.f[j];
    }
  }

  /** A point the search has looked at: its squared distance, with the id
      and the offset that go with it. */
  datatype Candidate = Candidate(d2: real, id: Word, delta: seq<real>)

  /** Entry `i` of the state: `F[i]` with the id and offset that `order[i]`
      points to, which is what `Cells3D` hands back for it. */
  function Entries(s: Nearest): (e: seq<Candidate>)
    requires ValidNearest(s)
    ensures |e| == |s.f|
  {
    seq(|s.f|, i requires 0 <= i < |s.f| => Candidate(s.f[i], s.id[s.order[i]], s.delta[s.order[i]]))
  }

  /** No two entries share a slot of `delta` and `ID`. */
  predicate DistinctSlots(s: Nearest) {
    forall i, j :: 0 <= i < j < |s.order| ==> s.order[i] != s.order[j]
  }

  /** An insertion keeps the slots distinct, and on entries it is the plain
      splice: the new point, with its own id and offset, at its sorted place,
      and every other entry keeping its id and offset. */
  lemma InsertEntries(s: Nearest, d2: real, thisId: Word, dv: seq<real>)
    requires ValidNearest(s) && DistinctSlots(s) && d2 < s.f[|s.f| - 1]
    ensures ValidNearest(Insert(s, d2, thisId, dv))
    ensures DistinctSlots(Insert(s, d2, thisId, dv))
    ensures Entries(Insert(s, d2, thisId, dv)) == Splice(Entries(s), ScanDown(s.f, d2, |s.f|), Candidate(d2, thisId, dv))
  {
    InsertValid(s, d2, thisId, dv);
    InsertPlaces(s, d2, thisId, dv);
    var k := |s.f|;
    var index := ScanDown(s.f, d2, k);
    var s' := Insert(s, d2, thisId, dv);
    var slot := s.order[k - 1];
    assert s'.order == Splice(s.order, index, slot);
    SpliceLastDistinct(s.order, index);
    SplicedEntries(s, s', index, Candidate(d2, thisId, dv));
  }

  /** Moving the last slot to `index` keeps the slots distinct. */
  lemma SpliceLastDistinct(a: seq<int>, index: nat)
    requires index < |a| && forall i, j :: 0 <= i < j < |a| ==> a[i] != a[j]
    ensures var b := Splice(a, index, a[|a| - 1]);
            forall i, j :: 0 <= i < j < |b| ==> b[i] != b[j]
  {
    var b := Splice(a, index, a[|a| - 1]);
    forall i, j | 0 <= i < j < |b|
      ensures b[i] != b[j]
    {
      SpliceAt(a, index, a[|a| - 1], i);
      SpliceAt(a, index, a[|a| - 1], j);
    }
  }

  /** A state whose distances and slots are spliced, with the moved slot
      rewritten to hold `c`'s id and offset, has the spliced entries. */
  lemma SplicedEntries(s: Nearest, s': Nearest, index: nat, c: Candidate)
    requires ValidNearest(s) && DistinctSlots(s) && ValidNearest(s') && index < |s.f|
    requires s'.f == Splice(s.f, index, c.d2)
    requires s'.order == Splice(s.order, index, s.order[|s.f| - 1])
    requires s'.id == s.id[s.order[|s.f| - 1] := c.id]
    requires s'.delta == s.delta[s.order[|s.f| - 1] := c.delta]
    ensures Entries(s') == Splice(Entries(s), index, c)
  {
    var k := |s.f|;
    var slot := s.order[k - 1];
    var e, e' := Entries(s), Entries(s');
    forall m | 0 <= m < k
      ensures m < index ==> e'[m] == e[m]
      ensures m == index ==> e'[m] == c
      ensures index < m ==> e'[m] == e[m - 1]
    {
      SpliceAt(s.f, index, c.d2, m);
      SpliceAt(s.order, index, slot, m);
      if m < index {
        assert s.order[m] != slot;
      } else if index < m {
        assert s.order[m - 1] != slot;
      }
    }
    SpliceIs(e, index, c, e');
  }

  /** The state accounts for the candidates `pool` (counted with repeats):
      every entry is one of them, no candidate fills two entries, and every
      candidate left out is no closer than the worst entry. */
  ghost predicate Accounts(s: Nearest, pool: multiset<Candidate>) {
    && ValidNearest(s) && DistinctSlots(s)
    && Selects(multiset(Entries(s)), pool, s.f[|s.f| - 1])
  }

  /** How often `c` occurs in `m`. The quantifier of `Selects` is keyed to
      this name, so it is used only where a proof asks for a count. */
  function Tally(m: multiset<Candidate>, c: Candidate): nat {
    m[c]
  }

  /** `e` is drawn from `pool`, and whatever `e` leaves out of `pool` is no
      closer than `w`. */
  ghost predicate Selects(e: multiset<Candidate>, pool: multiset<Candidate>, w: real) {
    forall c {:trigger Tally(e, c)} {:trigger Tally(pool, c)} ::
      && Tally(e, c) <= Tally(pool, c)
      && (Tally(e, c) < Tally(pool, c) ==> w <= c.d2)
  }

  /** What considering `ft` from the cell at corner offset `fa` looks at. */
  function Seen(fa: seq<real>, ft: Feature): Candidate
    requires |ft.p| == |fa|
  {
    Candidate(SqDist(ft.p, fa), ft.id, Displacement(ft.p, fa))
  }

  /** The bookkeeping of an insertion: `c` comes in, `last` (the old worst,
      at `w`) drops out, and the new worst `w'` is no further than `w`. */
  lemma SwapKeepsAccount(e: multiset<Candidate>, e': multiset<Candidate>, pool: multiset<Candidate>,
                         c: Candidate, last: Candidate, w: real, w': real)
    requires Selects(e, pool, w)
    requires e' + multiset{last} == e + multiset{c} && last.d2 == w && w' <= w
    ensures Selects(e', pool + multiset{c}, w')
  {
    forall x
      ensures Tally(e', x) <= Tally(pool + multiset{c}, x)
      ensures Tally(e', x) < Tally(pool + multiset{c}, x) ==> w' <= x.d2
    {
      assert (e' + multiset{last})[x] == (e + multiset{c})[x];
      assert Tally(e, x) == e[x] && Tally(pool, x) == pool[x];
    }
  }

  /** The bookkeeping of a point no closer than the worst entry. */
  lemma SkipKeepsAccount(e: multiset<Candidate>, pool: multiset<Candidate>, c: Candidate, w: real)
    requires Selects(e, pool, w)
    requires w <= c.d2
    ensures Selects(e, pool + multiset{c}, w)
  {
    forall x
      ensures Tally(e, x) <= Tally(pool + multiset{c}, x)
      ensures Tally(e, x) < Tally(pool + multiset{c}, x) ==> w <= x.d2
    {
      assert Tally(e, x) == e[x] && Tally(pool, x) == pool[x];
    }
  }

  /** Inserting a candidate closer than the worst entry keeps the account. */
  lemma InsertAccounts(s: Nearest, c: Candidate, pool: multiset<Candidate>)
    requires Accounts(s, pool) && c.d2 < s.f[|s.f| - 1]
    ensures Accounts(Insert(s, c.d2, c.id, c.delta), pool + multiset{c})
  {
    var k := |s.f|;
    var index := ScanDown(s.f, c.d2, k);
    var s' := Insert(s, c.d2, c.id, c.delta);
    ScanDownBelow(s.f, c.d2);
    InsertEntries(s, c.d2, c.id, c.delta);
    InsertBelowWorst(s, c.d2, c.id, c.delta);
    SpliceContents(Entries(s), index, c);
    SwapAccounts(s, s', c, pool);
  }

  /** The scan for a distance below the worst stops inside the list. */
  lemma ScanDownBelow(f: seq<real>, d2: real)
    requires 1 <= |f| && d2 < f[|f| - 1]
    ensures ScanDown(f, d2, |f|) < |f|
  {
  }

  /** A state whose entries are the old ones with the worst traded for `c`,
      and whose worst entry is no further, keeps the account with `c` added. */
  lemma SwapAccounts(s: Nearest, s': Nearest, c: Candidate, pool: multiset<Candidate>)
    requires Accounts(s, pool) && ValidNearest(s') && DistinctSlots(s') && |s'.f| == |s.f|
    requires multiset(Entries(s')) + multiset{Entries(s)[|s.f| - 1]} == multiset(Entries(s)) + multiset{c}
    requires s'.f[|s.f| - 1] <= s.f[|s.f| - 1]
    ensures Accounts(s', pool + multiset{c})
  {
    var k := |s.f|;
    var e, e' := Entries(s), Entries(s');
    assert e[k - 1].d2 == s.f[k - 1];
    SwapKeepsAccount(multiset(e), multiset(e'), pool, c, e[k - 1], s.f[k - 1], s'.f[k - 1]);
  }

  lemma ConsiderAccounts(s: Nearest, fa: seq<real>, ft: Feature, pool: multiset<Candidate>)
    requires Accounts(s, pool) && |ft.p| == |fa|
    ensures Accounts(Consider(s, fa, ft), pool + multiset{Seen(fa, ft)})
  {
    var c := Seen(fa, ft);
    if c.d2 < s.f[|s.f| - 1] {
      assert Consider(s, fa, ft) == Insert(s, c.d2, c.id, c.delta);
      InsertAccounts(s, c, pool);
    } else {
      assert Consider(s, fa, ft) == s;
      SkipKeepsAccount(multiset(Entries(s)), pool, c, s.f[|s.f| - 1]);
    }
  }

  /** What considering the points `fs` of one cell looks at, in order. */
  function SeenAll(fa: seq<real>, fs: seq<Feature>): (cs: seq<Candidate>)
    requires |fa| == 3 && Features3(fs)
    ensures |cs| == |fs|
  {
    seq(|fs|, j requires 0 <= j < |fs| => Seen(fa, fs[j]))
  }

  lemma {:induction false} AddSamplesAccounts(s: Nearest, fa: seq<real>, fs: seq<Feature>, pool: multiset<Candidate>)
    requires Accounts(s, pool) && |fa| == 3 && Features3(fs)
    ensures Accounts(AddSamples(s, fa, fs), pool + multiset(SeenAll(fa, fs)))
    decreases |fs|
  {
    if |fs| == 0 {
      assert SeenAll(fa, fs) == [];
    } else {
      var c := Seen(fa, fs[0]);
      var s1 := Consider(s, fa, fs[0]);
      var pool1 := pool + multiset{c};
      ConsiderAccounts(s, fa, fs[0], pool);
      AddSamplesAccounts(s1, fa, fs[1..], pool1);
      assert AddSamples(s, fa, fs) == AddSamples(s1, fa, fs[1..]);
      SeenAllFirst(fa, fs);
    }
  }

  lemma SeenAllFirst(fa: seq<real>, fs: seq<Feature>)
    requires |fa| == 3 && Features3(fs) && |fs| > 0
    ensures multiset(SeenAll(fa, fs)) == multiset{Seen(fa, fs[0])} + multiset(SeenAll(fa, fs[1..]))
  {
    assert SeenAll(fa, fs) == [Seen(fa, fs[0])] + SeenAll(fa, fs[1..]);
  }

  /** The points of visit `n`, as candidates. */
  function VisitCandidates(f: Features, t: seq<int>, at: seq<real>, n: nat): seq<Candidate>
    requires ValidFeatures(f) && ValidTable(t) && |at| == 3 && n < 27
  {
    var ia := IntAts(at);
    CellFeatures3(f, VisitSeed(t, ia, n));
    SeenAll(VisitOffset(ia, at, n), CellFeatures(f, VisitSeed(t, ia, n)))
  }

  /** The points of visits `n` to 26, in visiting order. */
  function CandidatesFrom(f: Features, t: seq<int>, at: seq<real>, n: nat): seq<Candidate>
    requires ValidFeatures(f) && ValidTable(t) && |at| == 3 && n <= 27
    decreases 27 - n
  {
    if n == 27 then [] else VisitCandidates(f, t, at, n) + CandidatesFrom(f, t, at, n + 1)
  }

  lemma {:induction false} SearchAccounts(f: Features, t: seq<int>, at: seq<real>, s: Nearest, n: nat, pool: multiset<Candidate>)
    requires ValidFeatures(f) && ValidTable(t) && |at| == 3 && n <= 27
    requires Accounts(s, pool)
    ensures Accounts(SearchFrom(f, t, at, false, s, n), pool + multiset(CandidatesFrom(f, t, at, n)))
    decreases 27 - n
  {
    if n < 27 {
      var ia := IntAts(at);
      var fs := CellFeatures(f, VisitSeed(t, ia, n));
      CellFeatures3(f, VisitSeed(t, ia, n));
      AddSamplesAccounts(s, VisitOffset(ia, at, n), fs, pool);
      var s1 := Visited(f, t, at, false, s, n);
      assert s1 == AddSamples(s, VisitOffset(ia, at, n), fs);
      SearchStep(f, t, at, false, s, n);
      SearchAccounts(f, t, at, s1, n + 1, pool + multiset(VisitCandidates(f, t, at, n)));
    }
  }

  /** Before the search each entry is a `FAR` placeholder in its own slot. */
  lemma StartAccounts(k: nat, id0: seq<Word>, delta0: seq<seq<real>>)
    requires 1 <= k && |id0| == k && |delta0| == k
    ensures Accounts(Start(k, id0, delta0), multiset(Entries(Start(k, id0, delta0))))
    ensures forall c: Candidate :: c in multiset(Entries(Start(k, id0, delta0))) ==> c.d2 == FAR
  {
    var e := Entries(Start(k, id0, delta0));
    forall c: Candidate | c in multiset(e)
      ensures c.d2 == FAR
    {
      var i :| 0 <= i < k && e[i] == c;
    }
  }

  /** The whole search accounts for the `FAR` placeholders and the points of
      all 27 cells. */
  lemma SearchAccountsAll(f: Features, t: seq<int>, at: seq<real>, k: nat,
                          id0: seq<Word>, delta0: seq<seq<real>>)
    requires ValidFeatures(f) && ValidTable(t) && |at| == 3
    requires 1 <= k && |id0| == k && |delta0| == k
    ensures Accounts(Search(f, t, at, k, id0, delta0),
                     multiset(Entries(Start(k, id0, delta0))) + multiset(CandidatesFrom(f, t, at, 0)))
  {
    var s0 := Start(k, id0, delta0);
    StartAccounts(k, id0, delta0);
    PruningIsExact(f, t, at, s0, 0);
    SearchAccounts(f, t, at, s0, 0, multiset(Entries(s0)));
  }

  /** The entries below `FAR` are a selection of the candidates `cs`
      (counted with repeats), and any candidate left out is no closer than
      the worst entry. */
  ghost predicate PicksNearest(s: Nearest, cs: multiset<Candidate>)
    requires ValidNearest(s)
  {
    && (forall c: Candidate :: c.d2 < FAR ==> multiset(Entries(s))[c] <= cs[c])
    && (forall c: Candidate :: multiset(Entries(s))[c] < cs[c] ==> s.f[|s.f| - 1] <= c.d2)
  }

  /** Placeholders aside, what is accounted for comes from the candidates. */
  lemma AccountedBelowFar(s: Nearest, init: multiset<Candidate>, cs: multiset<Candidate>)
    requires Accounts(s, init + cs)
    requires forall c :: c in init ==> c.d2 == FAR
    ensures PicksNearest(s, cs)
  {
    var e := multiset(Entries(s));
    forall c: Candidate
      ensures c.d2 < FAR ==> e[c] <= cs[c]
      ensures e[c] < cs[c] ==> s.f[|s.f| - 1] <= c.d2
    {
      assert (init + cs)[c] == init[c] + cs[c];
      assert Tally(e, c) == e[c] && Tally(init + cs, c) == (init + cs)[c];
      if c.d2 < FAR {
        assert c !in init;
      }
    }
  }

  /** The search is sound and picks the nearest: every entry below `FAR` is
      the distance, id and offset of a point of the 27 cells, no point fills
      two entries, and any point left out is no closer than the `k`-th
      distance. Through `Output` this is what `Cells3D` returns. */
  lemma NearestAreVisited(f: Features, t: seq<int>, at: seq<real>, k: nat,
                          id0: seq<Word>, delta0: seq<seq<real>>)
    requires ValidFeatures(f) && ValidTable(t) && |at| == 3
    requires 1 <= k && |id0| == k && |delta0| == k
    ensures PicksNearest(Search(f, t, at, k, id0, delta0), multiset(CandidatesFrom(f, t, at, 0)))
  {
    SearchAccountsAll(f, t, at, k, id0, delta0);
    StartAccounts(k, id0, delta0);
    AccountedBelowFar(Search(f, t, at, k, id0, delta0), multiset(Entries(Start(k, id0, delta0))),
                      multiset(CandidatesFrom(f, t, at, 0)));
  }

  /** One cache entry: `last_seed` with the ids and coordinates it drew. */
  datatype CellSlot = CellSlot(lastSeed: Word, feats: seq<Feature>)

  /** `InitCellBasis3D`: 27 zeroed slots. */
  function EmptyCellCache(): (c: seq<CellSlot>)
    ensures |c| == 27
    ensures forall n :: 0 <= n < 27 ==> c[n].lastSeed == 0
  {
    seq(27, n => CellSlot(0, []))
  }

  predicate SlotHolds(f: Features, slot: CellSlot)
    requires ValidFeatures(f)
  {
    slot.lastSeed != 0 ==> slot.feats == CellFeatures(f, slot.lastSeed)
  }

  predicate CellCacheConsistent(f: Features, c: seq<CellSlot>)
    requires ValidFeatures(f)
  {
    |c| == 27 && forall n :: 0 <= n < 27 ==> SlotHolds(f, c[n])
  }

  lemma EmptyCellCacheConsistent(f: Features)
    requires ValidFeatures(f)
    ensures CellCacheConsistent(f, EmptyCellCache())
  {
  }

  /** The miss path of `AddSamples_3D`: draw the cell's points. */
  method DrawFeatures(f: Features, seed: Word) returns (fs: seq<Feature>)
    requires ValidFeatures(f)
    ensures fs == CellFeatures(f, seed)
  {
    var count := f.count[seed % 256];
    var s := f.next(seed);
    fs := [];
    var j := 0;
    while j < count
      invariant 0 <= j <= count
      invariant s == Iterate(f.next, seed, 4 * j + 1)
      invariant fs == CellFeatures(f, seed)[..j]
    {
      ghost var m := 4 * j + 1;
      var thisId := s;
      s := f.next(s);
      assert s == Iterate(f.next, seed, m + 1);
      var fx := UnitCoord(s);
      s := f.next(s);
      assert s == Iterate(f.next, seed, m + 2);
      var fy := UnitCoord(s);
      s := f.next(s);
      assert s == Iterate(f.next, seed, m + 3);
      var fz := UnitCoord(s);
      s := f.next(s);
      assert s == Iterate(f.next, seed, m + 4);
      var ft := Feature(thisId, [fx, fy, fz]);
      assert ft == CellFeatures(f, seed)[j];
      assert CellFeatures(f, seed)[..j + 1] == fs + [ft];
      fs := fs + [ft];
      j := j + 1;
    }
  }

  /** A visited cell's points, from its slot on a hit (`seed` equals the
      slot's `last_seed` and is not 0), freshly drawn otherwise. */
  method Fetch(f: Features, seed: Word, slot: CellSlot) returns (fs: seq<Feature>, slot': CellSlot)
    requires ValidFeatures(f) && SlotHolds(f, slot)
    ensures fs == CellFeatures(f, seed)
    ensures slot'.lastSeed == seed && SlotHolds(f, slot')
    ensures seed == slot.lastSeed && seed != 0 ==> slot' == slot
  {
    if seed != slot.lastSeed || seed == 0 {
      fs := DrawFeatures(f, seed);
      slot' := CellSlot(seed, fs);
    } else {
      fs, slot' := slot.feats, slot;
    }
  }

  /** After `n` visits of the cached search: the state agrees with the
      cache-free search and the cache is consistent. */
  predicate Searched(f: Features, t: seq<int>, at: seq<real>, s0: Nearest, n: nat, s: Nearest, c: seq<CellSlot>)
    requires ValidFeatures(f) && ValidTable(t) && |at| == 3 && ValidNearest(s0)
  {
    && n <= 27 && ValidNearest(s)
    && SearchFrom(f, t, at, true, s, n) == SearchFrom(f, t, at, true, s0, 0)
    && CellCacheConsistent(f, c)
  }

  /** One visit of `Cells3D`, with its pruning test and its cache slot. */
  method CellsStep(f: Features, t: seq<int>, at: seq<real>, n: nat, s: Nearest, c: seq<CellSlot>)
    returns (s': Nearest, c': seq<CellSlot>)
    requires ValidFeatures(f) && ValidTable(t) && |at| == 3 && ValidNearest(s)
    requires n < 27 && CellCacheConsistent(f, c)
    ensures s' == Visited(f, t, at, true, s, n)
    ensures CellCacheConsistent(f, c')
  {
    var ia := IntAts(at);
    s', c' := s, c;
    if VisitTest(at, true, s, n) {
      var seed := VisitSeed(t, ia, n);
      var fs, slot := Fetch(f, seed, c[n]);
      StoreKeepsConsistent(f, c, n, slot);
      c' := c[n := slot];
      CellFeatures3(f, seed);
      s' := AddSamplesLoop(s, VisitOffset(ia, at, n), fs);
    }
  }

  lemma StoreKeepsConsistent(f: Features, c: seq<CellSlot>, n: nat, slot: CellSlot)
    requires ValidFeatures(f) && CellCacheConsistent(f, c) && n < 27 && SlotHolds(f, slot)
    ensures CellCacheConsistent(f, c[n := slot])
  {
  }

  /** `Cells3D` with its cache: whatever consistent cache it starts from, it
      returns what the cache-free search returns, and leaves the cache
      consistent. */
  method Cells3DCached(f: Features, t: seq<int>, sqrt: real -> real, at: seq<real>, k: nat,
                       id0: seq<Word>, delta0: seq<seq<real>>, cache: seq<CellSlot>)
    returns (r: CellResult, cache': seq<CellSlot>)
    requires ValidFeatures(f) && ValidTable(t) && |at| == 3
    requires 1 <= k && |id0| == k && |delta0| == k
    requires CellCacheConsistent(f, cache)
    ensures r == Cells3D(f, t, sqrt, at, k, id0, delta0)
    ensures CellCacheConsistent(f, cache')
  {
    var s0 := Start(k, id0, delta0);
    var s := s0;
    cache' := cache;
    var n := 0;
    while n < 27
      invariant 0 <= n <= 27
      invariant Searched(f, t, at, s0, n, s, cache')
    {
      s, cache' := CellsStep(f, t, at, n, s, cache');
      n := n + 1;
    }
    r := Output(s, sqrt);
  }
}
