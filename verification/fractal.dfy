/** The fractal layer that turns one basis routine into the value of a
    pixel: the choice of routine from an 81-entry table, the per-octave
    weights, and the octave loop the routines share.

    `pow` and `log` are parameters; the model is exact over `real` and says
    nothing about rounding. Where a division by zero would give an infinity
    or a NaN in C, the model gives `None`. */
module Fractal {
  import opened Common
  import RandomEngine

  // ---------------------------------------------------------------------
  // The routine table

  /** The basis families, in the order of the basis enumeration. */
  const LATTICE_NOISE: int := 0
  const LATTICE_TURB: int := 1
  const SPARSE_NOISE: int := 2
  const SPARSE_TURB: int := 3
  const BASIS_COUNT: int := 9

  /** What the `multifractal` setting selects: 0 is fractal Brownian motion,
      1 and 2 are the two multifractal mixes. */
  datatype Kind = Fbm | Mf1 | Mf2

  function KindOf(multi: int): Kind
    requires 0 <= multi < 3
  {
    if multi == 0 then Fbm else if multi == 1 then Mf1 else Mf2
  }

  /** The working data an entry allocates before sampling. Every entry with
      an allocation routine also has the matching release routine. */
  datatype Init = NoInit | SparseInit(dim: int) | CellInit(dim: int)

  function InitOf(basis: int, dim: int): Init {
    if basis < SPARSE_NOISE then NoInit
    else if basis <= SPARSE_TURB then SparseInit(dim)
    else CellInit(dim)
  }

  datatype Entry = Entry(basis: int, dim: int, kind: Kind, init: Init)

  function MakeEntry(basis: int, dim: int, kind: Kind): Entry {
    Entry(basis, dim, kind, InitOf(basis, dim))
  }

  /** One family's block of nine entries: the FBM routines, then the two
      multifractal mixes, each for 3, 4 and 5 dimensions. */
  function Block(b: int): (r: seq<Entry>)
    ensures |r| == 9
  {
    [MakeEntry(b, 3, Fbm), MakeEntry(b, 4, Fbm), MakeEntry(b, 5, Fbm),
     MakeEntry(b, 3, Mf1), MakeEntry(b, 4, Mf1), MakeEntry(b, 5, Mf1),
     MakeEntry(b, 3, Mf2), MakeEntry(b, 4, Mf2), MakeEntry(b, 5, Mf2)]
  }

  /** Entries in the routine table, not counting its terminating entry. */
  const ROUTINES: int := 81

  /** The routine table: nine blocks, one per family, in family order. */
  function Table(i: int): Entry
    requires 0 <= i < ROUTINES
  {
    Block(i / 9)[i % 9]
  }

  predicate ValidChoice(basis: int, dim: int, multi: int) {
    0 <= basis < BASIS_COUNT && 3 <= dim <= 5 && 0 <= multi < 3
  }

  function DispatchIndex(basis: int, dim: int, multi: int): int {
    basis * 9 + (dim - 3) + multi * 3
  }

  lemma BlockAt(b: int, j: int)
    requires 0 <= j < 9
    ensures Block(b)[j] == MakeEntry(b, j % 3 + 3, KindOf(j / 3))
  {
    if j < 3 {
    } else if j < 6 {
    } else {
    }
  }

  /** Every valid choice indexes the table, and the entry it finds is the
      routine for exactly that family, dimension and mix. */
  lemma DispatchSelects(basis: int, dim: int, multi: int)
    requires ValidChoice(basis, dim, multi)
    ensures 0 <= DispatchIndex(basis, dim, multi) < ROUTINES
    ensures Table(DispatchIndex(basis, dim, multi)) == MakeEntry(basis, dim, KindOf(multi))
  {
    var i := DispatchIndex(basis, dim, multi);
    var j := (dim - 3) + multi * 3;
    assert i == basis * 9 + j && 0 <= j < 9;
    assert i / 9 == basis && i % 9 == j;
    BlockAt(basis, j);
  }

  /** Conversely every entry of the table is reached by one valid choice:
      family `i / 9`, dimension `i % 3 + 3`, mix `(i / 3) % 3`. */
  lemma DispatchCovers(i: int)
    requires 0 <= i < ROUTINES
    ensures ValidChoice(i / 9, i % 3 + 3, (i / 3) % 3)
    ensures DispatchIndex(i / 9, i % 3 + 3, (i / 3) % 3) == i
  {
    var q := i / 3;
    assert i == 3 * q + i % 3;
    assert q == 3 * (q / 3) + q % 3;
    assert q / 3 == i / 9;
  }

  // ---------------------------------------------------------------------
  // The per-routine working data

  /** `data` and `data_type`: whether working data is allocated, and the
      table entry it was last set up for. */
  datatype Slot = Slot(present: bool, entry: int)

  const NO_DATA: Slot := Slot(false, 0)

  /** A call of an entry's allocation or release routine. */
  datatype Event = Acquire(entry: int) | Release(entry: int)

  predicate SlotValid(s: Slot) {
    0 <= s.entry < ROUTINES && (s.present ==> Table(s.entry).init != NoInit)
  }

  /** The data half of `SwitchBasis`: working data is rebuilt only when
      there is none or the entry changes; the old data is released first. */
  function SwitchData(s: Slot, next: int): (r: (Slot, seq<Event>))
    requires SlotValid(s) && 0 <= next < ROUTINES
    ensures SlotValid(r.0) && r.0.entry == next
    ensures r.0.present <==> Table(next).init != NoInit
    ensures r.1 != [] ==> !s.present || next != s.entry
    ensures Release(s.entry) in r.1 <==> s.present && next != s.entry
    ensures Acquire(next) in r.1 <==> (!s.present || next != s.entry) && Table(next).init != NoInit
  {
    if !s.present || next != s.entry then
      var released := if s.present && Table(s.entry).init != NoInit then [Release(s.entry)] else [];
      var acquired := if Table(next).init != NoInit then [Acquire(next)] else [];
      (Slot(Table(next).init != NoInit, next), released + acquired)
    else
      (s, [])
  }

  /** Switching to the same entry twice does nothing the second time. */
  lemma SwitchDataIdempotent(s: Slot, next: int)
    requires SlotValid(s) && 0 <= next < ROUTINES
    ensures SwitchData(SwitchData(s, next).0, next) == (SwitchData(s, next).0, [])
  {
  }

  /** `DeinitBasis` calls the release routine without checking it exists;
      in every reachable slot it does. */
  function DeinitData(s: Slot): (r: (Slot, seq<Event>))
    requires SlotValid(s)
    ensures !r.0.present
    ensures forall e | e in r.1 :: e == Release(s.entry) && Table(e.entry).init != NoInit
    ensures s.present ==> r.1 == [Release(s.entry)]
  {
    (Slot(false, s.entry), if s.present then [Release(s.entry)] else [])
  }

  // ---------------------------------------------------------------------
  // Octaves and weights

  const OCTAVE_EPSILON: real := 0.0001

  /** The octave setting split as `SwitchBasis` splits it: the whole part,
      the fraction, and the number of octaves the loop runs. */
  datatype Octaves = Octaves(whole: int, frac: real, count: int)

  /** The loop count is the octave setting rounded up, except that a
      fraction up to 0.0001 is dropped: the least `n` with
      `p - n <= 0.0001`. */
  function SplitOctaves(p: real): (r: Octaves)
    ensures r.whole as real <= p < r.whole as real + 1.0
    ensures r.whole as real + r.frac == p
    ensures r.count == r.whole || r.count == r.whole + 1
    ensures r.count == r.whole + 1 <==> r.frac > OCTAVE_EPSILON
    ensures p - r.count as real <= OCTAVE_EPSILON < p - (r.count - 1) as real
  {
    Octaves(p.Floor, p - p.Floor as real,
            if p - p.Floor as real > OCTAVE_EPSILON then p.Floor + 1 else p.Floor)
  }

  /** `weight[i] = (lacunarity^i)^(-4 hurst)`; the weight of the partial
      octave `i == whole` is scaled by the fraction. */
  function Weight(pow: (real, real) -> real, lac: real, hurst: real, o: Octaves, i: nat): real {
    var w := pow(Pow(lac, i), -4.0 * hurst);
    if i == o.whole then w * o.frac else w
  }

  function RawWeights(pow: (real, real) -> real, lac: real, hurst: real, o: Octaves): (w: seq<real>)
    requires o.whole >= -1
    ensures |w| == o.whole + 1
  {
    seq(o.whole + 1, i requires 0 <= i => Weight(pow, lac, hurst, o, i))
  }

  function Scale(w: seq<real>, c: real): (r: seq<real>)
    ensures |r| == |w|
  {
    seq(|w|, i requires 0 <= i < |w| => w[i] * c)
  }

  lemma {:induction false} SumScale(w: seq<real>, c: real)
    ensures Sum(Scale(w, c)) == Sum(w) * c
  {
    if |w| > 0 {
      var n := |w| - 1;
      assert Scale(w, c)[..n] == Scale(w[..n], c) by {
        forall k | 0 <= k < n
          ensures Scale(w, c)[..n][k] == Scale(w[..n], c)[k]
        {
        }
      }
      SumScale(w[..n], c);
    }
  }

  /** FBM weights are divided by their sum, so they total 1; a zero sum
      makes every weight a NaN in C, `None` here. */
  function Normalise(w: seq<real>): (r: Option<seq<real>>)
    ensures Sum(w) == 0.0 <==> r.None?
    ensures r.Some? ==> |r.value| == |w| && Sum(r.value) == 1.0
    ensures r.Some? ==> forall i :: 0 <= i < |w| ==> r.value[i] * Sum(w) == w[i]
  {
    if Sum(w) == 0.0 then None
    else
      SumScale(w, 1.0 / Sum(w));
      Some(Scale(w, 1.0 / Sum(w)))
  }

  /** The multifractal factor each octave contributes when its sample sits
      at the calibrated middle. */
  function Halved(w: seq<real>): (r: seq<real>)
    ensures |r| == |w|
  {
    seq(|w|, i requires 0 <= i < |w| => 1.0 - 0.5 * w[i])
  }

  function MultiScaling(w: seq<real>): real {
    Product(Halved(w))
  }

  /** `log(0.5) / log(scaling)`; `None` where the denominator is zero. */
  function Exponent(log: real -> real, scaling: real): (e: Option<real>)
    ensures e.Some? <==> log(scaling) != 0.0
    ensures e.Some? ==> e.value * log(scaling) == log(0.5)
  {
    if log(scaling) == 0.0 then None else Some(log(0.5) / log(scaling))
  }

  /** What `SwitchBasis` leaves behind for the sampling routines. */
  datatype Setup = Setup(octaves: Octaves, lacunarity: real, weight: Option<seq<real>>, exponent: Option<real>)

  /** The weight half of `SwitchBasis`. In FBM mode the exponent is left
      as it was, `None` here. */
  function Configure(multi: bool, p: real, lac: real, hurst: real,
                     pow: (real, real) -> real, log: real -> real): (r: Setup)
    requires -1.0 <= p
    ensures r.octaves == SplitOctaves(p) && r.lacunarity == lac
    ensures r.weight.Some? ==> r.octaves.count <= |r.weight.value| == r.octaves.whole + 1
    ensures multi ==> r.weight.Some? && r.exponent == Exponent(log, MultiScaling(r.weight.value))
    ensures !multi ==> r.exponent.None?
    ensures !multi && r.weight.Some? ==> Sum(r.weight.value) == 1.0
  {
    var o := SplitOctaves(p);
    var w := RawWeights(pow, lac, hurst, o);
    if multi then Setup(o, lac, Some(w), Exponent(log, MultiScaling(w)))
    else Setup(o, lac, Normalise(w), None)
  }

  lemma SumSnoc(w: seq<real>, x: real)
    ensures Sum(w + [x]) == Sum(w) + x
  {
    assert (w + [x])[..|w|] == w;
  }

  lemma ProductSnoc(w: seq<real>, x: real)
    ensures Product(w + [x]) == Product(w) * x
  {
    assert (w + [x])[..|w|] == w;
  }

  lemma HalvedSnoc(w: seq<real>, x: real)
    ensures Halved(w + [x]) == Halved(w) + [1.0 - 0.5 * x]
  {
  }

  lemma PowStep(b: real, n: nat)
    ensures Pow(b, n + 1) == Pow(b, n) * b
  {
  }

  /** One more weight extends the prefix the loop has built. */
  lemma RawPrefixStep(pow: (real, real) -> real, lac: real, hurst: real, o: Octaves, i: nat, weight: seq<real>)
    requires o.whole >= -1 && i <= o.whole
    requires weight == RawWeights(pow, lac, hurst, o)[..i]
    ensures RawWeights(pow, lac, hurst, o)[..i + 1] == weight + [Weight(pow, lac, hurst, o, i)]
  {
    var raw := RawWeights(pow, lac, hurst, o);
    assert raw[i] == Weight(pow, lac, hurst, o, i);
    assert raw[..i + 1] == raw[..i] + [raw[i]];
  }

  /** The running product of the multifractal loop after one more weight. */
  lemma ScalingStep(weight: seq<real>, w: real)
    ensures MultiScaling(weight + [w]) == MultiScaling(weight) * (1.0 - 0.5 * w)
  {
    HalvedSnoc(weight, w);
    ProductSnoc(Halved(weight), 1.0 - 0.5 * w);
  }

  /** One turn of the weight loop keeps its invariant. */
  lemma WeightLoopStep(multi: bool, o: Octaves, lac: real, hurst: real, pow: (real, real) -> real,
                       i: nat, freq: real, weight: seq<real>, scaling: real)
    requires o.whole >= -1 && i <= o.whole
    requires freq == Pow(lac, i) && weight == RawWeights(pow, lac, hurst, o)[..i]
    requires multi ==> scaling == MultiScaling(weight)
    requires !multi ==> scaling == Sum(weight)
    ensures freq * lac == Pow(lac, i + 1)
    ensures weight + [Weight(pow, lac, hurst, o, i)] == RawWeights(pow, lac, hurst, o)[..i + 1]
    ensures multi ==> scaling * (1.0 - 0.5 * Weight(pow, lac, hurst, o, i))
                      == MultiScaling(weight + [Weight(pow, lac, hurst, o, i)])
    ensures !multi ==> scaling + Weight(pow, lac, hurst, o, i) == Sum(weight + [Weight(pow, lac, hurst, o, i)])
  {
    var w := Weight(pow, lac, hurst, o, i);
    RawPrefixStep(pow, lac, hurst, o, i, weight);
    PowStep(lac, i);
    ScalingStep(weight, w);
    SumSnoc(weight, w);
  }

  /** The weight loop of `SwitchBasis` as written: `freq` multiplied by the
      lacunarity each step, and the running sum (FBM) or product
      (multifractal) kept in `scaling`. */
  method WeightLoop(multi: bool, o: Octaves, lac: real, hurst: real, pow: (real, real) -> real)
    returns (weight: seq<real>, scaling: real)
    requires o.whole >= -1
    ensures weight == RawWeights(pow, lac, hurst, o)
    ensures multi ==> scaling == MultiScaling(weight)
    ensures !multi ==> scaling == Sum(weight)
  {
    weight := [];
    var freq := 1.0;
    scaling := if multi then 1.0 else 0.0;
    var alpha := 4.0 * hurst;
    var i := 0;
    while i <= o.whole
      invariant 0 <= i <= o.whole + 1
      invariant freq == Pow(lac, i)
      invariant weight == RawWeights(pow, lac, hurst, o)[..i]
      invariant multi ==> scaling == MultiScaling(weight)
      invariant !multi ==> scaling == Sum(weight)
    {
      var w := pow(freq, -alpha);
      if i == o.whole {
        w := w * o.frac;
      }
      assert w == Weight(pow, lac, hurst, o, i);
      WeightLoopStep(multi, o, lac, hurst, pow, i, freq, weight, scaling);
      freq := freq * lac;
      if multi {
        scaling := scaling * (1.0 - 0.5 * w);
      } else {
        scaling := scaling + w;
      }
      weight := weight + [w];
      i := i + 1;
    }
    assert weight == RawWeights(pow, lac, hurst, o)[..o.whole + 1];
  }

  /** The FBM division loop: every weight divided by the sum. */
  method DivideWeights(weight: seq<real>, scaling: real) returns (normal: seq<real>)
    requires scaling != 0.0
    ensures normal == Scale(weight, 1.0 / scaling)
  {
    var k := 0;
    normal := [];
    while k < |weight|
      invariant 0 <= k <= |weight|
      invariant |normal| == k
      invariant forall j :: 0 <= j < k ==> normal[j] == weight[j] * (1.0 / scaling)
    {
      assert weight[k] / scaling == weight[k] * (1.0 / scaling);
      normal := normal + [weight[k] / scaling];
      k := k + 1;
    }
    assert forall j :: 0 <= j < |weight| ==> normal[j] == Scale(weight, 1.0 / scaling)[j];
  }

  /** The octave and weight part of `SwitchBasis`, statement by statement. */
  method SwitchBasisWeights(multi: bool, p: real, lac: real, hurst: real,
                            pow: (real, real) -> real, log: real -> real)
    returns (r: Setup)
    requires -1.0 <= p
    ensures r == Configure(multi, p, lac, hurst, pow, log)
  {
    var o := SplitOctaves(p);
    var weight, scaling := WeightLoop(multi, o, lac, hurst, pow);
    if multi {
      r := Setup(o, lac, Some(weight), Exponent(log, scaling));
    } else if scaling == 0.0 {
      r := Setup(o, lac, None, None);
    } else {
      var normal := DivideWeights(weight, scaling);
      r := Setup(o, lac, Some(normal), None);
    }
  }

  // ---------------------------------------------------------------------
  // What the weights guarantee, given the usual facts about pow and log

  /** `pow(1, e) = 1`, and a base of at least 1 raised to a non-positive
      power lies in (0, 1]. */
  ghost predicate PowFacts(pow: (real, real) -> real) {
    (forall e :: pow(1.0, e) == 1.0) &&
    (forall b, e :: 1.0 <= b && e <= 0.0 ==> 0.0 < pow(b, e) <= 1.0)
  }

  /** `log` is negative strictly between 0 and 1. */
  ghost predicate LogFacts(log: real -> real) {
    forall x :: 0.0 < x < 1.0 ==> log(x) < 0.0
  }

  lemma {:induction false} PowAtLeastOne(b: real, n: nat)
    requires 1.0 <= b
    ensures 1.0 <= Pow(b, n)
  {
    if n > 0 {
      PowAtLeastOne(b, n - 1);
      MulAtLeastOne(b, Pow(b, n - 1));
    }
  }

  lemma MulAtLeastOne(a: real, b: real)
    requires 1.0 <= a && 1.0 <= b
    ensures 1.0 <= a * b
  {
    assert (a - 1.0) * (b - 1.0) >= 0.0 by {
      MulNonneg(a - 1.0, b - 1.0);
    }
  }

  lemma MulNonneg(a: real, b: real)
    requires 0.0 <= a && 0.0 <= b
    ensures 0.0 <= a * b
  {
  }

  /** Every weight lies in [0, 1]; the first is 1 unless it is itself the
      partial octave. These are the multifractal weights, which must each
      lie in 0..1. */
  lemma WeightsInUnit(pow: (real, real) -> real, lac: real, hurst: real, p: real, i: nat)
    requires PowFacts(pow) && 1.0 <= lac && 0.0 <= hurst && -1.0 <= p
    requires i < |RawWeights(pow, lac, hurst, SplitOctaves(p))|
    ensures 0.0 <= RawWeights(pow, lac, hurst, SplitOctaves(p))[i] <= 1.0
    ensures i == 0 && SplitOctaves(p).whole > 0 ==> RawWeights(pow, lac, hurst, SplitOctaves(p))[i] == 1.0
  {
    var o := SplitOctaves(p);
    PowAtLeastOne(lac, i);
    var w := pow(Pow(lac, i), -4.0 * hurst);
    assert 0.0 < w <= 1.0;
    if i == o.whole {
      MulNonneg(w, o.frac);
      assert w * o.frac <= w by {
        MulNonneg(w, 1.0 - o.frac);
      }
    }
  }

  /** The weight of the first octave run is positive. */
  lemma FirstWeightPositive(pow: (real, real) -> real, lac: real, hurst: real, p: real)
    requires PowFacts(pow) && 1.0 <= lac && 0.0 <= hurst && -1.0 <= p
    requires SplitOctaves(p).count > 0
    ensures |RawWeights(pow, lac, hurst, SplitOctaves(p))| > 0
    ensures RawWeights(pow, lac, hurst, SplitOctaves(p))[0] > 0.0
  {
    var o := SplitOctaves(p);
    assert Pow(lac, 0) == 1.0;
    assert pow(1.0, -4.0 * hurst) == 1.0;
    if o.whole == 0 {
      assert o.frac > OCTAVE_EPSILON;
    }
  }

  lemma {:induction false} SumAtLeastFirst(w: seq<real>)
    requires |w| > 0 && forall i :: 0 <= i < |w| ==> 0.0 <= w[i]
    ensures Sum(w) >= w[0]
  {
    if |w| > 1 {
      var n := |w| - 1;
      SumAtLeastFirst(w[..n]);
    }
  }

  /** The FBM weights are defined whenever an octave is actually run: the
      NaNs of a zero sum appear only when the loop reads no weight. */
  lemma FbmWeightsDefined(p: real, lac: real, hurst: real,
                          pow: (real, real) -> real, log: real -> real)
    requires PowFacts(pow) && 1.0 <= lac && 0.0 <= hurst && -1.0 <= p
    requires SplitOctaves(p).count > 0
    ensures Configure(false, p, lac, hurst, pow, log).weight.Some?
  {
    var w := RawWeights(pow, lac, hurst, SplitOctaves(p));
    FirstWeightPositive(pow, lac, hurst, p);
    forall i | 0 <= i < |w|
      ensures 0.0 <= w[i]
    {
      WeightsInUnit(pow, lac, hurst, p, i);
    }
    SumAtLeastFirst(w);
  }

  /** A product of factors in (0, 1] is positive and at most its first
      factor. */
  lemma {:induction false} ProductBelowFirst(s: seq<real>)
    requires |s| > 0 && forall i :: 0 <= i < |s| ==> 0.0 < s[i] <= 1.0
    ensures 0.0 < Product(s) <= s[0]
  {
    var n := |s| - 1;
    if n > 0 {
      assert s[..n][0] == s[0];
      ProductBelowFirst(s[..n]);
      var a := Product(s[..n]);
      assert Product(s) == a * s[n];
      MulNonneg(a, 1.0 - s[n]);
      MulPositive(a, s[n]);
    } else {
      assert Product(s) == Product(s[..0]) * s[0];
    }
  }

  lemma MulPositive(a: real, b: real)
    requires 0.0 < a && 0.0 < b
    ensures 0.0 < a * b
  {
  }

  /** In multifractal mode the scaling lies strictly between 0 and 1
      whenever an octave is run, so the exponent is defined and positive. */
  lemma MultiExponentDefined(p: real, lac: real, hurst: real,
                             pow: (real, real) -> real, log: real -> real)
    requires PowFacts(pow) && LogFacts(log) && 1.0 <= lac && 0.0 <= hurst && -1.0 <= p
    requires SplitOctaves(p).count > 0
    ensures 0.0 < MultiScaling(Configure(true, p, lac, hurst, pow, log).weight.value) < 1.0
    ensures Configure(true, p, lac, hurst, pow, log).exponent.Some?
    ensures Configure(true, p, lac, hurst, pow, log).exponent.value > 0.0
  {
    var w := RawWeights(pow, lac, hurst, SplitOctaves(p));
    FirstWeightPositive(pow, lac, hurst, p);
    var h := Halved(w);
    forall i | 0 <= i < |h|
      ensures 0.0 < h[i] <= 1.0
    {
      WeightsInUnit(pow, lac, hurst, p, i);
    }
    ProductBelowFirst(h);
    var s := MultiScaling(w);
    assert 0.0 < s < 1.0;
    assert log(s) < 0.0 && log(0.5) < 0.0;
    NegativeQuotient(log(0.5), log(s));
  }

  lemma NegativeQuotient(a: real, b: real)
    requires a < 0.0 && b < 0.0
    ensures a / b > 0.0
  {
  }

  // ---------------------------------------------------------------------
  // The octave loop

  const SHIFT_STEP: real := 37.687322

  /** Where octave `i` samples the basis: every coordinate scaled by
      `lacunarity^i`, then shifted by `i` steps of 37.687322. */
  function OctavePoint(p: seq<real>, lac: real, i: nat): (q: seq<real>)
    ensures |q| == |p|
  {
    seq(|p|, k requires 0 <= k < |p| => p[k] * Pow(lac, i) + SHIFT_STEP * i as real)
  }

  /** Noise families accumulate the sample itself; turbulence families its
      distance from the calibrated middle. The 5D lattice turbulence mixes
      that distance with the noise mix rather than the turbulence mix. */
  datatype Style = Plain | Turbulent(turbMix: bool)

  function StyleOf(basis: int, dim: int): Style {
    if basis == LATTICE_TURB || basis == SPARSE_TURB then
      Turbulent(!(basis == LATTICE_TURB && dim == 5))
    else
      Plain
  }

  /** A routine's calibration: the middle of its raw range and the factor
      that scales the range to 1. */
  datatype Calibration = Calibration(mid: real, fac: real)

  /** A sampling routine: the basis, how it is mixed, and its calibration. */
  datatype Routine = Routine(sample: seq<real> -> real, style: Style, kind: Kind, cal: Calibration)

  /** What the mixes treat as a value in [-0.5, 0.5]. */
  function FbmLevel(r: Routine, v: real): real {
    match r.style
    case Plain => (v - r.cal.mid) * r.cal.fac
    case Turbulent(_) => Abs(v - r.cal.mid) * (2.0 * r.cal.fac) - 0.5
  }

  function MfLevel(r: Routine, v: real): real {
    match r.style
    case Plain => (v - r.cal.mid) * r.cal.fac
    case Turbulent(turbMix) =>
      if turbMix then Abs(v - r.cal.mid) * (2.0 * r.cal.fac) - 0.5
      else (Abs(v - r.cal.mid) - r.cal.mid) * r.cal.fac
  }

  /** What an FBM octave adds, before weighting. */
  function Contribution(r: Routine, v: real): real {
    if r.style == Plain then v else Abs(v - r.cal.mid)
  }

  /** The factor a multifractal octave multiplies by, as the mixing
      macros write it: `MULTI_MIX` on the sample for noise routines, on
      the distance `tmp` for the 5D lattice turbulence, `TURB_MIX` on the
      distance for the other turbulence routines. */
  function Factor(r: Routine, v: real, w: real): (f: real)
    ensures w == 0.0 ==> f == 1.0
  {
    var tmp := Abs(v - r.cal.mid);
    match r.style
    case Plain =>
      if r.kind == Mf1 then 1.0 + ((v - r.cal.mid) * r.cal.fac - 0.5) * w
      else 1.0 + ((v - r.cal.mid) * -r.cal.fac - 0.5) * w
    case Turbulent(turbMix) =>
      if turbMix then
        if r.kind == Mf1 then 1.0 + (tmp * (2.0 * r.cal.fac) - 1.0) * w
        else 1.0 + (-tmp * (2.0 * r.cal.fac)) * w
      else
        if r.kind == Mf1 then 1.0 + ((tmp - r.cal.mid) * r.cal.fac - 0.5) * w
        else 1.0 + ((tmp - r.cal.mid) * -r.cal.fac - 0.5) * w
  }

  /** One octave's update of `value`: added to in FBM mode, multiplied in
      the multifractal modes. */
  function Mix(r: Routine, value: real, v: real, w: real): real {
    if r.kind == Fbm then value + Contribution(r, v) * w
    else value * Factor(r, v, w)
  }

  function Start(k: Kind): real {
    if k == Fbm then 0.0 else 1.0
  }

  /** The value after the first `n` octaves. */
  function Accumulate(r: Routine, lac: real, w: seq<real>, p: seq<real>, n: nat): real
    requires n <= |w|
  {
    if n == 0 then Start(r.kind)
    else Mix(r, Accumulate(r, lac, w, p, n - 1), r.sample(OctavePoint(p, lac, n - 1)), w[n - 1])
  }

  /** Octaves of weight zero leave the starting value in place, whatever
      the basis returns. */
  lemma {:induction false} AccumulateZeroWeights(r: Routine, lac: real, w: seq<real>, p: seq<real>, n: nat)
    requires n <= |w| && forall i :: 0 <= i < n ==> w[i] == 0.0
    ensures Accumulate(r, lac, w, p, n) == Start(r.kind)
  {
    if n > 0 {
      AccumulateZeroWeights(r, lac, w, p, n - 1);
    }
  }

  /** The routine's return expression. */
  function Finish(r: Routine, pow: (real, real) -> real, exponent: real, value: real): real {
    match (r.style, r.kind)
    case (Plain, Fbm) => (value - r.cal.mid) * r.cal.fac
    case (Turbulent(_), Fbm) => value * (r.cal.fac * 2.0) - 0.5
    case (_, Mf1) => pow(value, exponent) - 0.5
    case (_, Mf2) => -(pow(value, exponent) - 0.5)
  }

  /** `BASE3D`/`BASE4D`/`BASE5D` over any number of coordinates: the loop
      scales the coordinates in place and keeps a running shift. */
  method OctaveLoop(r: Routine, pow: (real, real) -> real, lac: real, w: seq<real>, exponent: real,
                    count: nat, p: seq<real>)
    returns (out: real)
    requires count <= |w|
    ensures out == Finish(r, pow, exponent, Accumulate(r, lac, w, p, count))
  {
    var x := p;
    var shift := 0.0;
    var value := Start(r.kind);
    var i := 0;
    while i < count
      invariant 0 <= i <= count
      invariant |x| == |p|
      invariant forall k :: 0 <= k < |p| ==> x[k] == p[k] * Pow(lac, i)
      invariant shift == SHIFT_STEP * i as real
      invariant value == Accumulate(r, lac, w, p, i)
    {
      var point := seq(|x|, k requires 0 <= k < |x| => x[k] + shift);
      assert point == OctavePoint(p, lac, i) by {
        forall k | 0 <= k < |p|
          ensures point[k] == OctavePoint(p, lac, i)[k]
        {
        }
      }
      AccumulateStep(r, lac, w, p, i + 1);
      value := Mix(r, value, r.sample(point), w[i]);
      forall k | 0 <= k < |p|
        ensures x[k] * lac == p[k] * Pow(lac, i + 1)
      {
        PowStep(lac, i);
      }
      x := seq(|x|, k requires 0 <= k < |x| => x[k] * lac);
      shift := shift + SHIFT_STEP;
      i := i + 1;
    }
    out := Finish(r, pow, exponent, value);
  }

  // ---------------------------------------------------------------------
  // What the octave loop guarantees

  /** The weighted sum of the FBM levels over the first `n` octaves. */
  function LevelSum(r: Routine, lac: real, w: seq<real>, p: seq<real>, n: nat): real
    requires n <= |w|
  {
    if n == 0 then 0.0
    else LevelSum(r, lac, w, p, n - 1) + w[n - 1] * FbmLevel(r, r.sample(OctavePoint(p, lac, n - 1)))
  }

  /** One step of `Accumulate`. */
  lemma AccumulateStep(r: Routine, lac: real, w: seq<real>, p: seq<real>, n: nat)
    requires 0 < n <= |w|
    ensures Accumulate(r, lac, w, p, n)
            == Mix(r, Accumulate(r, lac, w, p, n - 1), r.sample(OctavePoint(p, lac, n - 1)), w[n - 1])
  {
  }

  lemma MixFbm(r: Routine, value: real, v: real, w: real)
    requires r.kind == Fbm
    ensures Mix(r, value, v, w) == value + Contribution(r, v) * w
  {
  }

  lemma PlainStep(a: real, s: real, l: real, c: real, w: real, mid: real, fac: real,
                  a': real, s': real, l': real)
    requires (a - mid * s) * fac == l
    requires a' == a + c * w && s' == s + w && l' == l + w * ((c - mid) * fac)
    ensures (a' - mid * s') * fac == l'
  {
    calc {
      (a' - mid * s') * fac;
      (a - mid * s) * fac + (c * w - mid * w) * fac;
      l + w * ((c - mid) * fac);
    }
  }

  lemma TurbStep(a: real, s: real, l: real, t: real, w: real, fac: real,
                 a': real, s': real, l': real)
    requires a * (fac * 2.0) - 0.5 * s == l
    requires a' == a + t * w && s' == s + w && l' == l + w * (t * (2.0 * fac) - 0.5)
    ensures a' * (fac * 2.0) - 0.5 * s' == l'
  {
  }

  lemma SumPrefixStep(w: seq<real>, n: nat)
    requires 0 < n <= |w|
    ensures Sum(w[..n]) == Sum(w[..n - 1]) + w[n - 1]
  {
    assert w[..n][..n - 1] == w[..n - 1];
  }

  /** How the plain FBM accumulator relates to the weighted levels. */
  predicate PlainLevels(r: Routine, lac: real, w: seq<real>, p: seq<real>, n: nat)
    requires n <= |w|
  {
    (Accumulate(r, lac, w, p, n) - r.cal.mid * Sum(w[..n])) * r.cal.fac == LevelSum(r, lac, w, p, n)
  }

  /** How the turbulent FBM accumulator relates to the weighted levels. */
  predicate TurbLevels(r: Routine, lac: real, w: seq<real>, p: seq<real>, n: nat)
    requires n <= |w|
  {
    Accumulate(r, lac, w, p, n) * (r.cal.fac * 2.0) - 0.5 * Sum(w[..n]) == LevelSum(r, lac, w, p, n)
  }

  /** The plain FBM relation carried from `n - 1` octaves to `n`. */
  lemma FbmPlainStep(r: Routine, lac: real, w: seq<real>, p: seq<real>, n: nat)
    requires r.kind == Fbm && r.style == Plain && 0 < n <= |w|
    requires PlainLevels(r, lac, w, p, n - 1)
    ensures PlainLevels(r, lac, w, p, n)
  {
    var v := r.sample(OctavePoint(p, lac, n - 1));
    var a := Accumulate(r, lac, w, p, n - 1);
    assert Accumulate(r, lac, w, p, n) == a + v * w[n - 1] by {
      AccumulateStep(r, lac, w, p, n);
      MixFbm(r, a, v, w[n - 1]);
    }
    SumPrefixStep(w, n);
    PlainStep(a, Sum(w[..n - 1]), LevelSum(r, lac, w, p, n - 1), v, w[n - 1], r.cal.mid, r.cal.fac,
              Accumulate(r, lac, w, p, n), Sum(w[..n]), LevelSum(r, lac, w, p, n));
  }

  /** The turbulent FBM relation carried from `n - 1` octaves to `n`. */
  lemma FbmTurbStep(r: Routine, lac: real, w: seq<real>, p: seq<real>, n: nat)
    requires r.kind == Fbm && r.style.Turbulent? && 0 < n <= |w|
    requires TurbLevels(r, lac, w, p, n - 1)
    ensures TurbLevels(r, lac, w, p, n)
  {
    var v := r.sample(OctavePoint(p, lac, n - 1));
    var t := Abs(v - r.cal.mid);
    var a := Accumulate(r, lac, w, p, n - 1);
    assert Accumulate(r, lac, w, p, n) == a + t * w[n - 1] by {
      AccumulateStep(r, lac, w, p, n);
      MixFbm(r, a, v, w[n - 1]);
    }
    SumPrefixStep(w, n);
    TurbStep(a, Sum(w[..n - 1]), LevelSum(r, lac, w, p, n - 1), t, w[n - 1], r.cal.fac,
             Accumulate(r, lac, w, p, n), Sum(w[..n]), LevelSum(r, lac, w, p, n));
  }

  lemma {:induction false} FbmAsLevelsPlain(r: Routine, lac: real, w: seq<real>, p: seq<real>, n: nat)
    requires r.kind == Fbm && r.style == Plain && n <= |w|
    ensures PlainLevels(r, lac, w, p, n)
  {
    if n > 0 {
      FbmAsLevelsPlain(r, lac, w, p, n - 1);
      FbmPlainStep(r, lac, w, p, n);
    }
  }

  lemma {:induction false} FbmAsLevelsTurb(r: Routine, lac: real, w: seq<real>, p: seq<real>, n: nat)
    requires r.kind == Fbm && r.style.Turbulent? && n <= |w|
    ensures TurbLevels(r, lac, w, p, n)
  {
    if n > 0 {
      FbmAsLevelsTurb(r, lac, w, p, n - 1);
      FbmTurbStep(r, lac, w, p, n);
    }
  }

  /** With weights that total 1, an FBM routine returns the weighted mean
      of its per-octave levels. */
  lemma FbmIsWeightedMean(r: Routine, pow: (real, real) -> real, exponent: real,
                          lac: real, w: seq<real>, p: seq<real>, n: nat)
    requires r.kind == Fbm && n <= |w| && Sum(w[..n]) == 1.0
    ensures Finish(r, pow, exponent, Accumulate(r, lac, w, p, n)) == LevelSum(r, lac, w, p, n)
  {
    if r.style == Plain {
      FbmAsLevelsPlain(r, lac, w, p, n);
    } else {
      FbmAsLevelsTurb(r, lac, w, p, n);
    }
  }

  lemma {:induction false} LevelSumBounded(r: Routine, lac: real, w: seq<real>, p: seq<real>, n: nat)
    requires n <= |w|
    requires forall i :: 0 <= i < |w| ==> 0.0 <= w[i]
    requires forall x :: -0.5 <= FbmLevel(r, r.sample(x)) <= 0.5
    ensures -0.5 * Sum(w[..n]) <= LevelSum(r, lac, w, p, n) <= 0.5 * Sum(w[..n])
  {
    if n > 0 {
      LevelSumBounded(r, lac, w, p, n - 1);
      assert w[..n][..n - 1] == w[..n - 1];
      var l := FbmLevel(r, r.sample(OctavePoint(p, lac, n - 1)));
      MulNonneg(w[n - 1], 0.5 - l);
      MulNonneg(w[n - 1], l + 0.5);
    }
  }

  /** A calibrated FBM routine whose weights total 1 stays in
      [-0.5, 0.5], the range basis routines are meant to return. */
  lemma FbmOutputRange(r: Routine, pow: (real, real) -> real, exponent: real,
                       lac: real, w: seq<real>, p: seq<real>, n: nat)
    requires r.kind == Fbm && n <= |w| && Sum(w[..n]) == 1.0
    requires forall i :: 0 <= i < |w| ==> 0.0 <= w[i]
    requires forall x :: -0.5 <= FbmLevel(r, r.sample(x)) <= 0.5
    ensures -0.5 <= Finish(r, pow, exponent, Accumulate(r, lac, w, p, n)) <= 0.5
  {
    FbmIsWeightedMean(r, pow, exponent, lac, w, p, n);
    LevelSumBounded(r, lac, w, p, n);
  }

  /** What an FBM output loses when its weights total `t` rather than 1:
      `MID * FAC` per missing unit when plain, 1/2 when turbulent. */
  function FbmShortfall(r: Routine, t: real): real {
    match r.style
    case Plain => r.cal.mid * r.cal.fac * (1.0 - t)
    case Turbulent(_) => 0.5 * (1.0 - t)
  }

  lemma PlainOffset(a: real, s: real, mid: real, fac: real)
    ensures (a - mid) * fac == (a - mid * s) * fac - mid * fac * (1.0 - s)
  {
  }

  /** Whatever the weights total, an FBM output is the weighted level sum
      shifted down by the shortfall times the weight missing from 1. */
  lemma FbmOffset(r: Routine, pow: (real, real) -> real, exponent: real,
                  lac: real, w: seq<real>, p: seq<real>, n: nat)
    requires r.kind == Fbm && n <= |w|
    ensures Finish(r, pow, exponent, Accumulate(r, lac, w, p, n))
         == LevelSum(r, lac, w, p, n) - FbmShortfall(r, Sum(w[..n]))
  {
    var t := Sum(w[..n]);
    if r.style == Plain {
      PlainFbmOffset(r, pow, exponent, lac, w, p, n);
      assert FbmShortfall(r, t) == r.cal.mid * r.cal.fac * (1.0 - t);
    } else {
      TurbFbmOffset(r, pow, exponent, lac, w, p, n);
      assert FbmShortfall(r, t) == 0.5 * (1.0 - t);
    }
  }

  lemma PlainFbmOffset(r: Routine, pow: (real, real) -> real, exponent: real,
                       lac: real, w: seq<real>, p: seq<real>, n: nat)
    requires r.kind == Fbm && r.style == Plain && n <= |w|
    ensures Finish(r, pow, exponent, Accumulate(r, lac, w, p, n))
         == LevelSum(r, lac, w, p, n) - r.cal.mid * r.cal.fac * (1.0 - Sum(w[..n]))
  {
    var a, t := Accumulate(r, lac, w, p, n), Sum(w[..n]);
    FbmAsLevelsPlain(r, lac, w, p, n);
    PlainOffset(a, t, r.cal.mid, r.cal.fac);
  }

  lemma TurbFbmOffset(r: Routine, pow: (real, real) -> real, exponent: real,
                      lac: real, w: seq<real>, p: seq<real>, n: nat)
    requires r.kind == Fbm && r.style.Turbulent? && n <= |w|
    ensures Finish(r, pow, exponent, Accumulate(r, lac, w, p, n))
         == LevelSum(r, lac, w, p, n) - 0.5 * (1.0 - Sum(w[..n]))
  {
    FbmAsLevelsTurb(r, lac, w, p, n);
  }

  /** A turbulent FBM output stays in [-0.5, 0.5] as long as its weights
      total at most 1, so a dropped octave cannot push it out. */
  lemma TurbulentOutputRange(r: Routine, pow: (real, real) -> real, exponent: real,
                             lac: real, w: seq<real>, p: seq<real>, n: nat)
    requires r.kind == Fbm && r.style.Turbulent? && n <= |w| && Sum(w[..n]) <= 1.0
    requires forall i :: 0 <= i < |w| ==> 0.0 <= w[i]
    requires forall x :: -0.5 <= FbmLevel(r, r.sample(x)) <= 0.5
    ensures -0.5 <= Finish(r, pow, exponent, Accumulate(r, lac, w, p, n)) <= 0.5
  {
    FbmOffset(r, pow, exponent, lac, w, p, n);
    LevelSumBounded(r, lac, w, p, n);
  }

  lemma {:induction false} SumNonneg(w: seq<real>)
    requires forall i :: 0 <= i < |w| ==> 0.0 <= w[i]
    ensures 0.0 <= Sum(w)
  {
    if |w| > 0 {
      SumNonneg(w[..|w| - 1]);
    }
  }

  lemma QuotientSign(x: real, s: real, y: real)
    requires x * s == y && 0.0 < s
    ensures 0.0 <= y ==> 0.0 <= x
    ensures 0.0 < y ==> 0.0 < x
  {
  }

  /** A normalised weight has the sign of the raw weight it came from,
      and is 0 exactly where the raw weight is. */
  lemma NormaliseSign(raw: seq<real>, i: nat)
    requires Normalise(raw).Some? && i < |raw|
    ensures raw[i] == 0.0 <==> Normalise(raw).value[i] == 0.0
    ensures (forall k :: 0 <= k < |raw| ==> 0.0 <= raw[k]) ==>
              && 0.0 <= Normalise(raw).value[i]
              && (0.0 < raw[i] ==> 0.0 < Normalise(raw).value[i])
  {
    var x, t, y := Normalise(raw).value[i], Sum(raw), raw[i];
    assert x * t == y && t != 0.0;
    if forall k :: 0 <= k < |raw| ==> 0.0 <= raw[k] {
      SumNonneg(raw);
      QuotientSign(x, t, y);
    }
  }

  /** The weights of the octaves the loop actually runs total 1, except
      when a fraction in (0, 0.0001] was normalised in and then dropped:
      then they fall short by exactly the dropped weight. */
  lemma RunWeights(oct: real, lac: real, hurst: real, pow: (real, real) -> real, log: real -> real)
    requires -1.0 <= oct && Configure(false, oct, lac, hurst, pow, log).weight.Some?
    ensures var s := Configure(false, oct, lac, hurst, pow, log);
            && 0 <= s.octaves.whole < |s.weight.value|
            && ((s.octaves.frac == 0.0 || s.octaves.frac > OCTAVE_EPSILON) ==>
                  Sum(s.weight.value[..s.octaves.count]) == 1.0)
            && (0.0 < s.octaves.frac <= OCTAVE_EPSILON ==>
                  && s.octaves.count == s.octaves.whole
                  && Sum(s.weight.value[..s.octaves.count]) == 1.0 - s.weight.value[s.octaves.whole])
  {
    var s := Configure(false, oct, lac, hurst, pow, log);
    var o := s.octaves;
    var raw := RawWeights(pow, lac, hurst, o);
    var w := s.weight.value;
    assert s.weight == Normalise(raw);
    assert |raw| > 0;
    var k := o.whole;
    assert w[..k + 1] == w;
    assert Sum(w) == Sum(w[..k]) + w[k];
    if o.frac == 0.0 {
      assert raw[k] == 0.0;
      NormaliseSign(raw, k);
    }
  }

  /** With the `pow` of C, the dropped weight is positive, so the octaves
      run total strictly less than 1 and the weighted-mean premise fails. */
  lemma DroppedWeightPositive(oct: real, lac: real, hurst: real, pow: (real, real) -> real, log: real -> real)
    requires PowFacts(pow) && 1.0 <= lac && 0.0 <= hurst && -1.0 <= oct
    requires Configure(false, oct, lac, hurst, pow, log).weight.Some?
    requires 0.0 < SplitOctaves(oct).frac <= OCTAVE_EPSILON
    ensures var s := Configure(false, oct, lac, hurst, pow, log);
            && 0 <= s.octaves.whole < |s.weight.value|
            && 0.0 < s.weight.value[s.octaves.whole]
            && Sum(s.weight.value[..s.octaves.count]) < 1.0
  {
    var s := Configure(false, oct, lac, hurst, pow, log);
    var o := s.octaves;
    var raw := RawWeights(pow, lac, hurst, o);
    var w := s.weight.value;
    RunWeights(oct, lac, hurst, pow, log);
    assert s.weight == Normalise(raw);
    var k := o.whole;
    PositiveWeights(oct, lac, hurst, pow);
    PowAtLeastOne(lac, k);
    MulPositive(pow(Pow(lac, k), -4.0 * hurst), o.frac);
    assert raw[k] > 0.0;
    NormaliseSign(raw, k);
  }

  lemma PositiveWeights(oct: real, lac: real, hurst: real, pow: (real, real) -> real)
    requires PowFacts(pow) && 1.0 <= lac && 0.0 <= hurst && -1.0 <= oct
    ensures forall i :: 0 <= i < |RawWeights(pow, lac, hurst, SplitOctaves(oct))|
              ==> 0.0 <= RawWeights(pow, lac, hurst, SplitOctaves(oct))[i]
  {
    forall i | 0 <= i < |RawWeights(pow, lac, hurst, SplitOctaves(oct))|
      ensures 0.0 <= RawWeights(pow, lac, hurst, SplitOctaves(oct))[i]
    {
      WeightsInUnit(pow, lac, hurst, oct, i);
    }
  }

  /** SwitchBasis and the octave loop together: with the weights it sets
      up and a fraction of 0 or above 0.0001, an FBM routine whose levels
      lie in [-0.5, 0.5] returns a value in [-0.5, 0.5]. */
  lemma ConfiguredFbmRange(r: Routine, pow: (real, real) -> real, log: real -> real, exponent: real,
                           oct: real, lac: real, hurst: real, p: seq<real>)
    requires r.kind == Fbm && PowFacts(pow) && 1.0 <= lac && 0.0 <= hurst && -1.0 <= oct
    requires Configure(false, oct, lac, hurst, pow, log).weight.Some?
    requires SplitOctaves(oct).frac == 0.0 || SplitOctaves(oct).frac > OCTAVE_EPSILON
    requires forall x :: -0.5 <= FbmLevel(r, r.sample(x)) <= 0.5
    ensures var s := Configure(false, oct, lac, hurst, pow, log);
            -0.5 <= Finish(r, pow, exponent, Accumulate(r, lac, s.weight.value, p, s.octaves.count)) <= 0.5
  {
    var s := Configure(false, oct, lac, hurst, pow, log);
    var raw := RawWeights(pow, lac, hurst, s.octaves);
    var w := s.weight.value;
    RunWeights(oct, lac, hurst, pow, log);
    assert s.weight == Normalise(raw);
    PositiveWeights(oct, lac, hurst, pow);
    forall i | 0 <= i < |w|
      ensures 0.0 <= w[i]
    {
      NormaliseSign(raw, i);
    }
    FbmOutputRange(r, pow, exponent, lac, w, p, s.octaves.count);
  }

  /** The factor of a multifractal octave in terms of its level:
      `1 + (level - 1/2) w` in the first mix, `1 + (-level - 1/2) w` in
      the second. */
  function MfFactor(k: Kind, level: real, w: real): real {
    if k == Mf1 then 1.0 + (level - 0.5) * w else 1.0 + (-level - 0.5) * w
  }

  /** Every mixing macro multiplies by the factor of its level. */
  lemma MixIsFactor(r: Routine, v: real, w: real)
    requires r.kind != Fbm
    ensures Factor(r, v, w) == MfFactor(r.kind, MfLevel(r, v), w)
  {
  }

  /** A level in [-1/2, 1/2] and a weight in [0, 1] give a factor in [0, 1]. */
  lemma FactorInUnit(k: Kind, level: real, w: real)
    requires -0.5 <= level <= 0.5 && 0.0 <= w <= 1.0
    ensures 0.0 <= MfFactor(k, level, w) <= 1.0
  {
    if k == Mf1 {
      MulNonneg(0.5 - level, w);
      MulNonneg(level + 0.5, w);
      assert (level - 0.5) * w == -((0.5 - level) * w);
      assert (0.5 - level) * w <= w by {
        MulNonneg(level + 0.5, w);
      }
    } else {
      MulNonneg(level + 0.5, w);
      MulNonneg(0.5 - level, w);
      assert (-level - 0.5) * w == -((level + 0.5) * w);
      assert (level + 0.5) * w <= w by {
        MulNonneg(0.5 - level, w);
      }
    }
  }

  lemma MulInUnit(a: real, b: real)
    requires 0.0 <= a <= 1.0 && 0.0 <= b <= 1.0
    ensures 0.0 <= a * b <= 1.0
  {
    MulNonneg(a, b);
    MulNonneg(a, 1.0 - b);
  }

  /** A calibrated multifractal value stays in [0, 1] whatever the samples,
      so the final `pow` is taken of a value in [0, 1]. */
  lemma {:induction false} MfValueInUnit(r: Routine, lac: real, w: seq<real>, p: seq<real>, n: nat)
    requires r.kind != Fbm && n <= |w|
    requires forall i :: 0 <= i < |w| ==> 0.0 <= w[i] <= 1.0
    requires forall x :: -0.5 <= MfLevel(r, r.sample(x)) <= 0.5
    ensures 0.0 <= Accumulate(r, lac, w, p, n) <= 1.0
  {
    if n > 0 {
      MfValueInUnit(r, lac, w, p, n - 1);
      var v := r.sample(OctavePoint(p, lac, n - 1));
      AccumulateStep(r, lac, w, p, n);
      MixIsFactor(r, v, w[n - 1]);
      FactorInUnit(r.kind, MfLevel(r, v), w[n - 1]);
      MulInUnit(Accumulate(r, lac, w, p, n - 1), Factor(r, v, w[n - 1]));
    }
  }

  /** A sample at the calibrated middle scales the value by 1 - w/2. */
  lemma MiddleFactor(r: Routine, v: real, w: real)
    requires r.kind != Fbm && MfLevel(r, v) == 0.0
    ensures Factor(r, v, w) == 1.0 - 0.5 * w
  {
    MixIsFactor(r, v, w);
  }

  /** `x` scaled by `1 - w/2`, the factor of one octave at the middle. */
  function Shrunk(x: real, w: real): real {
    x * (1.0 - 0.5 * w)
  }

  /** An octave whose sample sits at the middle scales the value by 1 - w/2. */
  lemma MiddleStep(r: Routine, lac: real, w: seq<real>, p: seq<real>, n: nat)
    requires r.kind != Fbm && 0 < n <= |w|
    requires MfLevel(r, r.sample(OctavePoint(p, lac, n - 1))) == 0.0
    ensures Accumulate(r, lac, w, p, n) == Shrunk(Accumulate(r, lac, w, p, n - 1), w[n - 1])
  {
    AccumulateStep(r, lac, w, p, n);
    MiddleFactor(r, r.sample(OctavePoint(p, lac, n - 1)), w[n - 1]);
  }

  lemma ScalingPrefix(w: seq<real>, n: nat)
    requires 0 < n <= |w|
    ensures MultiScaling(w[..n]) == Shrunk(MultiScaling(w[..n - 1]), w[n - 1])
  {
    assert w[..n] == w[..n - 1] + [w[n - 1]];
    ScalingStep(w[..n - 1], w[n - 1]);
  }

  /** When every sample sits at the calibrated middle, the multifractal
      value is the product `SwitchBasis` calls the scaling. */
  lemma {:induction false} MfMiddleIsScaling(r: Routine, lac: real, w: seq<real>, p: seq<real>, n: nat)
    requires r.kind != Fbm && n <= |w|
    requires forall x :: MfLevel(r, r.sample(x)) == 0.0
    ensures Accumulate(r, lac, w, p, n) == MultiScaling(w[..n])
  {
    if n > 0 {
      MfMiddleIsScaling(r, lac, w, p, n - 1);
      MiddleStep(r, lac, w, p, n);
      ScalingPrefix(w, n);
    }
  }

  /** The exponent is chosen so that the middle maps to 0, the middle of
      the output range: `scaling ^ (log 0.5 / log scaling) = 0.5`. */
  lemma MfMiddleMapsToZero(r: Routine, pow: (real, real) -> real, log: real -> real,
                           lac: real, w: seq<real>, p: seq<real>)
    requires r.kind != Fbm
    requires forall x :: MfLevel(r, r.sample(x)) == 0.0
    requires Exponent(log, MultiScaling(w)).Some?
    requires pow(MultiScaling(w), Exponent(log, MultiScaling(w)).value) == 0.5
    ensures Finish(r, pow, Exponent(log, MultiScaling(w)).value, Accumulate(r, lac, w, p, |w|)) == 0.0
  {
    MfMiddleIsScaling(r, lac, w, p, |w|);
    assert w[..|w|] == w;
  }

  // ---------------------------------------------------------------------
  // InitBasis

  /** The mapping enumeration, in its declared order. */
  datatype Mapping = Planar | Tiled | Spherical | Radial

  /** How many coordinates the renderer passes to the basis routine for a
      mapping; the phase is the last of them for the tiled and spherical
      mappings and is mixed into all three for the planar one. */
  function Arguments(m: Mapping): nat {
    match m
    case Planar => 3
    case Tiled => 5
    case Spherical => 4
    case Radial => 0
  }

  /** The dimension `InitBasis` chooses: one per coordinate, less the
      phase when it is ignored and passed separately. The radial mapping
      has no case and leaves the dimension at 0. */
  function MappingDim(m: Mapping, ignPhase: bool): (dim: int)
    ensures m == Radial ==> dim == 0
    ensures m != Radial ==> 3 <= dim <= 5
    ensures dim == Arguments(m) - (if ignPhase && m != Planar && m != Radial then 1 else 0)
  {
    var dim := match m
      case Planar => 3
      case Spherical => 4
      case Tiled => 5
      case Radial => 0;
    if ignPhase && dim > 3 then dim - 1 else dim
  }

  /** With the phase kept, different mappings use different dimensions. */
  lemma MappingDimInjective(m: Mapping, m': Mapping)
    requires MappingDim(m, false) == MappingDim(m', false)
    ensures m == m'
  {
  }

  /** The part of the plug-in state `InitBasis` reads. */
  datatype BasisState = BasisState(seed: RandomEngine.Word, mapping: Mapping, ignPhase: bool, basis: int,
                                   multifractal: int, octaves: real, lacunarity: real, hurst: real)

  predicate StateValid(st: BasisState) {
    st.mapping != Radial && 0 <= st.basis < BASIS_COUNT && 0 <= st.multifractal < 3 && -1.0 <= st.octaves
  }

  datatype Basis = Basis(table: seq<int>, slot: Slot, events: seq<Event>, setup: Setup)

  /** `InitBasis`: a fresh hash table from the seed, then `SwitchBasis`. */
  function InitBasis(st: BasisState, s: Slot, pow: (real, real) -> real, log: real -> real): (b: Basis)
    requires StateValid(st) && SlotValid(s)
    ensures RandomEngine.IsPermutation(b.table)
    ensures SlotValid(b.slot)
    ensures Table(b.slot.entry) ==
      MakeEntry(st.basis, MappingDim(st.mapping, st.ignPhase), KindOf(st.multifractal))
    ensures b.setup == Configure(st.multifractal != 0, st.octaves, st.lacunarity, st.hurst, pow, log)
  {
    DispatchSelects(st.basis, MappingDim(st.mapping, st.ignPhase), st.multifractal);
    var index := DispatchIndex(st.basis, MappingDim(st.mapping, st.ignPhase), st.multifractal);
    var switched := SwitchData(s, index);
    Basis(RandomEngine.ShuffleTable(st.seed), switched.0, switched.1,
          Configure(st.multifractal != 0, st.octaves, st.lacunarity, st.hurst, pow, log))
  }

  /** `GetBasis`: the routine of the current entry. */
  function GetBasis(s: Slot): (e: Entry)
    requires SlotValid(s)
    ensures 0 <= s.entry < ROUTINES && e == Table(s.entry)
  {
    Table(s.entry)
  }
}
