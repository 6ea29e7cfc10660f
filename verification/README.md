# felimage noise, modelled in Dafny

felimage is a GIMP plug-in that renders solid noise: lattice ("gradient")
noise, sparse convolution noise and cellular ("Worley") noise in three, four
or five dimensions, summed over octaves as fractional Brownian motion or a
multifractal, shaped by gain, bias and pinch, and coloured through a
gradient. Its settings are saved to and loaded from preset files.

This project models the plug-in's computational core and proves properties
of the model. Each module follows one part of the program:

- `Common`: optional values, exact `floor`, truncation and `fmod(x, 1)` over
  the reals, clamping, and powers.
- `RandomEngine` (src/random.c, tags/start/noise-plugin/src/random.h): the multiply-with-carry generator on 32-bit
  words, the seeding of the 1024-entry shuffle table (a functional definition
  and the in-place array procedure, proved to agree), and the hash chains
  `Hash1`..`Hash5`.
- `Interp`: `Lerp` and the degree-7 fade `Curve`. `Curve` is identified with
  the binomial tail P(Binomial(7, t) ≥ 4), from which its range,
  monotonicity and symmetry are derived.
- `Lattice` (src/lnoise_3d.c, src/lnoise_4d.c, trunk/noise-plugin/src/lnoise_5d.c): cell splitting,
  gradient selection from the hashed corner, the blend of the 2^D corners,
  and the 5D blend loops over strides.
- `Sparse` (src/snoise_3d.c, trunk/noise-plugin/src/snoise_4d.c, src/snoise_5d.c): the 3^D neighbourhood walk with its per-slot
  cache of feature points. The cached walk is proved equal to a cache-free
  reference.
- `Cellular` (tags/start/noise-plugin/src/cell_3d.c): the insertion of feature points into the
  sorted list of the nearest `max_order` ones, and the pruned 27-cell search.
  The search is proved to find the same nearest points as the unpruned one,
  and each reported distance is proved to come, with its id and offset,
  from a feature of a neighbour cell.
- `Fractal` (src/basis.c): the 81-entry routine table, octave weights, and
  the fBm and multifractal accumulations.
- `Tone` (src/render.c, src/render.h): the precomputed tone coefficients and
  the gain, clamp, bias, pinch, output-function and shift pipeline. The
  bias and pinch coefficient forms are proved equal to Schlick's bias and
  gain functions. The module also covers the colour ramp and the dirty mask
  that decides which precomputations are redone.
- `Text`: the GLib string primitives the preset format uses.
- `Preset` (src/loadconf.c, trunk/noise-plugin/src/main.c): the plug-in
  state, its defaults and name tables, `SetValue`, `ParseIncremental`,
  `ParseConfig` and `LoadConfig`. The edge name table is the one aligned
  with GIMP's numbering, and the line reader skips lines without ':'. Both
  are corrections of the source, which is modelled as written alongside
  (see Findings).
- `PresetSave` (src/saveconf.c): `SaveConfig`, and the per-field facts of
  what a saved line restores.
- `PresetRoundTrip`: loading what `SaveConfig` wrote gives back the saved
  state, as far as the format keeps it. Saving it again reproduces the same
  file.
- `Hex`: `GetMD5Text`.
- `PresetName` (src/interface.c): adding and removing the ".fnp" extension.

Transcendental functions, the C library's number conversions and printing,
GIMP's MD5 digest and the headers' `RANDOM`, `KERNEL` and `Poisson_count`
are parameters of the model. Each is a function-typed field of a record,
and the theorems hold for every choice that meets their stated premises.

`LatticeTurb5D` mixes its multifractal octaves with `MULTI_MIX` applied to
the turbulence distance, where the 3D and 4D turbulence routines use
`TURB_MIX`. The model follows the code as written (`Fractal.Factor`).

## Model

| member | source | states |
|---|---|---|
| RandomEngine.TableSizeIsPowerOfTwo | tags/start/noise-plugin/src/random.h:34-36 | The shuffle table has 2^10 = 1024 entries, so `& (TABLE_SIZE-1)` is reduction modulo the table size. |
| RandomEngine.SetRandomSeed | src/random.c:34-41 | Seeding sets the state word to 30903 and the carry to the seed, and splits RANDOM_FACTOR into 16-bit high and low halves that recombine to the factor. |
| RandomEngine.Random | src/random.c:22-32 | The new state is (x·FACTOR + c) mod 2^32 and is the value returned. The multiplier halves are kept. The carry is the estimated high word, plus one exactly when the unsigned test `xl*al >= ~c + 1` holds. |
| RandomEngine.CarryEstimateApproximatesHighWord | src/random.c:25-30 | With the halves that SetRandomSeed installs, the carry estimate is at most 2 below the true high word of x·FACTOR, so the generator approximates multiply-with-carry. |
| RandomEngine.ShuffleIndex | src/random.c:67 | `Random() >> 22` is a valid table index below 1024. It selects the 1024th of the 32-bit range that the drawn word falls in. |
| RandomEngine.RandomDbl | tags/start/noise-plugin/src/random.h:28 | A drawn word divided by 2^32 lies in [0, 1). |
| RandomEngine.InitialTablesAreInverse | src/random.c:59-63 | The unshuffled forward table (successor) and backward table (predecessor) are mutual inverses. |
| RandomEngine.InitialTablesArePermutations | src/random.c:59-63 | Both unshuffled tables are permutations of 0..1023. |
| RandomEngine.Rotate | src/random.c:72-80 | The three-assignment rotation through a temporary rearranges the table without losing or duplicating any entry. |
| RandomEngine.RotateIsTwoSwaps | src/random.c:72-75 | Whatever positions alias, the rotation equals two successive swaps, so it is a permutation step. |
| RandomEngine.SwapStep | src/random.c:68-80 | One shuffle step maps a pair of permutation tables to a pair of permutation tables. |
| RandomEngine.ShuffleFrom | src/random.c:65-81 | Running the remaining shuffle steps from any pair of permutations leaves the forward table a permutation of 0..1023. |
| RandomEngine.ShuffleFromStep | src/random.c:65-81 | Each loop iteration draws one word, takes its swap partner, applies the step, and continues with the next index. |
| RandomEngine.ShuffleTable | src/random.c:43-84 | The table a seed produces is a permutation of 0..1023. It is a function of the seed alone, so the same seed rebuilds the same table. |
| RandomEngine.NewTables | src/random.c:52-63 | The two freshly allocated tables hold the successor and predecessor tables. |
| RandomEngine.ShuffleStep | src/random.c:67-80 | The in-place array step does exactly what the functional step does to both tables. |
| RandomEngine.InitShuffleTable | src/random.c:43-84 | The array procedure computes the seed's table, which is a permutation whose every entry is a valid index. |
| RandomEngine.HashChainInRange | tags/start/noise-plugin/src/random.h:38-42 | Over a permutation table, a hash chain of any length yields an index below 1024. |
| RandomEngine.Hash2IsChain | tags/start/noise-plugin/src/random.h:39 | Hash2 is a two-argument chain: the first argument is added to the lookup of the rest. |
| RandomEngine.Hash3IsChain | tags/start/noise-plugin/src/random.h:40 | Hash3 is a three-argument chain. |
| RandomEngine.Hash4IsChain | tags/start/noise-plugin/src/random.h:41 | Hash4 is a four-argument chain. |
| RandomEngine.Hash5IsChain | tags/start/noise-plugin/src/random.h:42 | Hash5 is a five-argument chain. |
| RandomEngine.HashMacrosAreChains | tags/start/noise-plugin/src/random.h:38-42 | Hash1 to Hash5 are one chaining scheme applied at arities one to five. |
| RandomEngine.Hash1 | tags/start/noise-plugin/src/random.h:38 | Hash1 is an entry of the table. |
| RandomEngine.Hash2 | tags/start/noise-plugin/src/random.h:39 | Hash2 is an entry of the table. |
| RandomEngine.Hash3 | tags/start/noise-plugin/src/random.h:40 | Hash3 is an entry of the table. |
| RandomEngine.Hash4 | tags/start/noise-plugin/src/random.h:41 | Hash4 is an entry of the table. |
| RandomEngine.Hash5 | tags/start/noise-plugin/src/random.h:42 | Hash5 is an entry of the table. |
| RandomEngine.HashChain | tags/start/noise-plugin/src/random.h:38-42 | A chain of any length ends on an entry of the table. |
| RandomEngine.HashesAreIndices | tags/start/noise-plugin/src/random.h:38-42 | Over a permutation table, every HashN result is below 1024, so it can be used as a table index. |
| RandomEngine.HashChainPeriodic | tags/start/noise-plugin/src/random.h:38-42 | A chain depends on each argument only through its value modulo 1024. |
| RandomEngine.Hash1DependsOnLowBits | tags/start/noise-plugin/src/random.h:38 | Hash1(A) depends only on `A & 1023`. |
| Common.Clamp | src/loadconf.c:53-54 | The nested-conditional clamp returns the bound that was crossed, and otherwise the value itself. |
| Common.ClampInt | src/loadconf.c:54 | The integer clamp lies within its bounds and keeps any value already inside them. |
| Common.Trunc | src/snoise_3d.c:71-73 | The C `(int)` cast rounds toward zero: it is at most x for x ≥ 0, and at least x for negative x. |
| Common.FracPart | src/render.c:787 | `fmod(x, 1)` keeps the sign of x, has magnitude below 1, and differs from x by an integer. |
| Interp.Lerp | src/lnoise_int.h:24 | `Lerp(0,A,B) = A` and `Lerp(1,A,B) = B`. |
| Interp.LerpBetween | src/lnoise_int.h:24 | For a weight in [0,1], the blend stays between its two end values. |
| Interp.LerpMono | src/lnoise_int.h:24 | Raising either end value never lowers the blend. |
| Interp.LerpWeightMono | src/lnoise_int.h:24 | When B ≥ A, a larger weight never lowers the blend. |
| Interp.LerpReflect | src/lnoise_int.h:24 | Blending the complements of the ends with the complementary weight is the complement of the blend. |
| Interp.TailStep | src/lnoise_int.h:24 | The binomial tail probability P(Bin(n,t) ≥ k) is the Lerp of the two smaller tails, conditioning on the last trial. |
| Interp.TailBounded | src/lnoise_int.h:24 | Every binomial tail at a weight in [0,1] lies in [0,1]. |
| Interp.TailAntitone | src/lnoise_int.h:24 | Asking for more successes never makes the tail more likely. |
| Interp.TailMonotone | src/lnoise_int.h:24 | A larger success probability never makes the tail less likely. |
| Interp.TailReflect | src/lnoise_int.h:24 | Exchanging success and failure turns "at least k of n" into the complement of "at least n+1-k". |
| Interp.CurveIsTail | src/lnoise_int.h:40 | The Horner form of Curve is the polynomial -20t^7+70t^6-84t^5+35t^4. This equals P(Bin(7,t) ≥ 4). |
| Interp.CurveRange | src/lnoise_int.h:40 | Curve maps [0,1] into [0,1]. |
| Interp.CurveMonotone | src/lnoise_int.h:40 | Curve is non-decreasing on [0,1]. |
| Interp.CurveSymmetric | src/lnoise_int.h:40 | Curve is point-symmetric about (1/2, 1/2): Curve(1-t) = 1 - Curve(t). |
| Interp.CurveFixedPoints | src/lnoise_int.h:40 | Curve(0) = 0, Curve(1) = 1 and Curve(1/2) = 1/2. |
| Interp.Curve | src/lnoise_int.h:40 | The fade curve fixes both ends of the unit interval: 0 maps to 0 and 1 to 1. |
| Lattice.FloorSplit | src/lnoise_3d.c:49-60 | The integer part is floor(x), and the fractional part x − floor(x) lies in [0, 1). |
| Lattice.Bit | src/lnoise_3d.c:64-66 | `(i & 2^k) >> k` is a single bit. |
| Lattice.Grad3Shape | src/lnoise_3d.c:74-131 | The 16-way switch on `Hash3 & 15` has 16 rows. Each row is a signed sum of exactly two of the three offsets. Rows 12-15 repeat rows 0, 2, 10 and 11. |
| Lattice.Grad4Shape | src/lnoise_4d.c:80-188 | The 32-way switch on `Hash4 & 31` has 32 rows, each a signed sum of exactly three of the four offsets. |
| Lattice.Grad4ShapeLow | src/lnoise_4d.c:80-133 | The first 16 cases of the 4D switch are three-term signed sums. |
| Lattice.Grad4ShapeHigh | src/lnoise_4d.c:134-188 | The last 16 cases of the 4D switch are three-term signed sums. |
| Lattice.DotBound | src/lnoise_3d.c:69-127 | A signed sum of offsets in [−1, 1] has magnitude at most the number of its terms. |
| Lattice.DotZero | src/lnoise_3d.c:69-127 | A signed sum of zero offsets is zero. |
| Lattice.GradientBound | trunk/noise-plugin/src/lnoise_5d.c:84-100 | Every corner value of a D-dimensional lattice (D = 3, 4, 5) has magnitude at most D − 1, and it is 0 at a zero offset. This covers the 5D `(h>>4) % 5` selector with its four sign bits. |
| Lattice.Halve | trunk/noise-plugin/src/lnoise_5d.c:109-111 | One reduction level: each entry is the Lerp of an adjacent pair of corners. |
| Lattice.ReduceBounded | src/lnoise_3d.c:138-146 | Collapsing 2^D corners with weights in [0, 1] never leaves the bound the corners share. |
| Lattice.ReduceAtOrigin | src/lnoise_3d.c:138-146 | With every weight 0, the reduction returns corner 0. |
| Lattice.Corners | src/lnoise_3d.c:62-132 | The corner loop produces 2^D values, one per corner index. |
| Lattice.CornerAt | src/lnoise_3d.c:62-132 | Corner i is the gradient selected by the hash chain of the cell offset by the bits of i, applied to the fraction minus those bits. |
| Lattice.HashChainInTable | tags/start/noise-plugin/src/random.h:38-42 | Over a table of 16-bit entries, every hash is a non-negative 16-bit value. |
| Lattice.Hash3InTable | src/lnoise_3d.c:74 | The 3D selector's hash is a non-negative 16-bit value. |
| Lattice.Hash4InTable | src/lnoise_4d.c:80 | The 4D selector's hash is a non-negative 16-bit value. |
| Lattice.Hash5InTable | trunk/noise-plugin/src/lnoise_5d.c:84 | The 5D hash is a non-negative 16-bit value. |
| Lattice.Frac | src/lnoise_3d.c:49-60 | Every fractional coordinate lies in [0, 1). |
| Lattice.LatticeNoise | src/lnoise_3d.c:62-146 | Lattice noise in D dimensions (the blend of the 2^D corner values by the fade weights) has magnitude at most D − 1 at every point, over any valid table. |
| Lattice.BlendBounded | src/lnoise_3d.c:62-146 | The reduction of any point's corner values by its fade weights is bounded by D − 1. |
| Lattice.LatticeNoiseZeroAtLattice | src/lnoise_3d.c:138-146 | At integer coordinates the noise is 0. All weights are Curve(0) = 0, and corner 0 has a zero offset. |
| Lattice.ZeroWeightsAtLattice | src/lnoise_3d.c:134-136 | At integer coordinates every fraction and every Curve weight is 0. |
| Lattice.CornerZeroAtLattice | src/lnoise_3d.c:69-74 | At integer coordinates corner 0's value is 0. |
| Lattice.LatticeNoisePeriodic | tags/start/noise-plugin/src/random.h:38-42 | Shifting any coordinate by 1024 leaves the noise unchanged, because hashes see cells modulo the table size. |
| Lattice.CornerValues3D | src/lnoise_3d.c:62-132 | The 3D corner loop, written as the source's switch, fills 8 values. |
| Lattice.Reduce3 | src/lnoise_3d.c:138-146 | The generic reduction over 3 axes is the source's trilinear Lerp nest: x first, then y, then z. |
| Lattice.CornerCell3 | src/lnoise_3d.c:64-66 | Corner i of a 3D cell adds bits 0, 1 and 2 of i to x, y and z. |
| Lattice.CornerOffset3 | src/lnoise_3d.c:69-71 | Corner i's offset subtracts those bits from the fractions. |
| Lattice.CornerCell4 | src/lnoise_4d.c:68-71 | Corner i of a 4D cell adds bits 0 to 3 of i to x, y, z and t. |
| Lattice.CornerOffset4 | src/lnoise_4d.c:74-77 | Corner i's 4D offset subtracts those bits from the fractions. |
| Lattice.CornerCell5 | trunk/noise-plugin/src/lnoise_5d.c:70-74 | Corner i of a 5D cell adds bits 0 to 4 of i to x, y, z, s and t. |
| Lattice.CornerOffset5 | trunk/noise-plugin/src/lnoise_5d.c:77-81 | Corner i's 5D offset subtracts those bits from the fractions. |
| Lattice.Corner3D | src/lnoise_3d.c:62-132 | The source's 3D switch agrees with the generic corner gradient at every corner. |
| Lattice.LNoise3D | src/lnoise_3d.c:36-147 | LNoise3D, written as the source computes it corner by corner, equals the generic lattice noise at (x, y, z), and so lies in [−2, 2]. |
| Lattice.Corners3DAgree | src/lnoise_3d.c:62-132 | The eight corner values the source computes are the generic corners of the point's cell, and its three fade weights are the generic weights. |
| Lattice.CornerValues4D | src/lnoise_4d.c:66-189 | The 4D corner loop, written as the source's switch, fills 16 values. |
| Lattice.Reduce4 | src/lnoise_4d.c:196-214 | The generic reduction over 4 axes is the source's Lerp nest, reducing by x, then y, z and t. |
| Lattice.CornerValue3D | src/lnoise_3d.c:62-132 | Corner i of the common 3D corner values is the gradient at the hashed offset cell. |
| Lattice.Corner4D | src/lnoise_4d.c:66-189 | The source's 32-way switch agrees with the generic corner gradient at every one of the 16 corners. |
| Lattice.LNoise4D | src/lnoise_4d.c:36-215 | LNoise4D equals the generic lattice noise at (x, y, z, w), and so lies in [−3, 3]. |
| Lattice.Corners4DAgree | src/lnoise_4d.c:66-189 | The sixteen corner values the source computes are the generic corners of the point's cell, and its four fade weights are the generic weights. |
| Lattice.CornerValue4D | src/lnoise_4d.c:66-189 | Corner i of the common 4D corner values is the gradient at the hashed offset cell. |
| Lattice.Corner5D | trunk/noise-plugin/src/lnoise_5d.c:69-101 | Corner i of the 5D loop is the Hash5 of the offset cell, fed to the 5D gradient of the offset fractions. |
| Lattice.ReduceStep | trunk/noise-plugin/src/lnoise_5d.c:109-123 | Blending over several axes is one halving along the first axis followed by the blend over the rest. |
| Lattice.Reduce5 | trunk/noise-plugin/src/lnoise_5d.c:109-123 | The generic reduction over 5 axes takes four halvings and then a final Lerp over the last axis of the two survivors. |
| Lattice.CornerArray5D | trunk/noise-plugin/src/lnoise_5d.c:69-101 | The array loop fills `dp[0..31]` with the 32 corner values. |
| Lattice.BlendStride1 | trunk/noise-plugin/src/lnoise_5d.c:109-111 | The stride-2 loop leaves the x-reduced level in the even slots. |
| Lattice.BlendStride2 | trunk/noise-plugin/src/lnoise_5d.c:113-115 | The stride-4 loop leaves the y-reduced level in every fourth slot. |
| Lattice.BlendStride4 | trunk/noise-plugin/src/lnoise_5d.c:117-119 | The stride-8 loop leaves the z-reduced level in every eighth slot. |
| Lattice.BlendStrides | trunk/noise-plugin/src/lnoise_5d.c:109-119 | After the three stride loops, slots 0, 8, 16 and 24 hold the level reduced by x, y and z. |
| Lattice.Blend5D | trunk/noise-plugin/src/lnoise_5d.c:109-123 | The in-place stride reduction ends, through `dp[0]` and `dp[16]`, at the generic reduction of the 32 corners. |
| Lattice.LNoise5D | trunk/noise-plugin/src/lnoise_5d.c:30-124 | LNoise5D is the generic lattice noise in 5 dimensions, so its magnitude is at most 4. |
| Sparse.IntAt | src/snoise_3d.c:71-73 | `int_at` is at most a, and within 1 below it. It equals floor(a) except at negative integers, where it is one less. |
| Sparse.IntAts | src/snoise_3d.c:71-73 | Every coordinate gets its own `int_at`. |
| Sparse.Offsets | src/snoise_3d.c:77-88 | The n-th visited neighbour has one offset in {−1, 0, 1} per axis. |
| Sparse.SlotOfOffsets | src/snoise_3d.c:77-136 | The walk visits neighbour offsets with the first axis varying fastest. Visit n uses cache slot n. |
| Sparse.OffsetsOfSlot | src/snoise_3d.c:77-136 | Every offset vector in {−1,0,1}^D has a slot below 3^D, and that slot leads back to the vector, so each neighbour cell has exactly one slot. |
| Sparse.SlotIndex3D | src/snoise_3d.c:77-136 | In 3D the slot of offsets (a0, a1, a2) is (a2+1)·9 + (a1+1)·3 + (a0+1). |
| Sparse.Neighbour | src/snoise_3d.c:79-87 | A neighbour cell has as many coordinates as the point. |
| Sparse.HashChainInRange | src/snoise_3d.c:79-87 | A cell seed, a hash chain over 16-bit entries, is a 16-bit word. |
| Sparse.UnitCoord | src/snoise_3d.c:99 | `(seed + 0.5) / 2^32` lies strictly inside (0, 1). |
| Sparse.Point | trunk/noise-plugin/src/snoise_4d.c:96-106 | Each feature point takes D successive `RANDOM` draws, one coordinate per draw. |
| Sparse.Points | src/snoise_3d.c:90-109 | A cell holds `Poisson_count[seed & 255]` points, each of dimension D. |
| Sparse.SqDist | src/snoise_3d.c:111 | The squared distance is non-negative. |
| Sparse.CellOffset | src/snoise_3d.c:80-88 | The offset from the point to a neighbour cell's origin has one entry per axis. |
| Sparse.EmptyCache | src/snoise_3d.c:46-47 | The fresh cache has 3^D zero-initialised slots, each with last seed 0. |
| Sparse.CacheSizes | src/snoise_5d.c:46-47 | The caches have 27, 81 and 243 slots in 3, 4 and 5 dimensions. |
| Sparse.EmptyCacheConsistent | src/snoise_3d.c:46-47 | A zeroed cache is consistent: no slot claims points for a seed that would hit. |
| Sparse.DrawCell | src/snoise_3d.c:92-117 | The miss path stores the seed's points and adds their kernel terms to the sum. |
| Sparse.ReadCell | src/snoise_3d.c:119-134 | The hit path adds the kernel terms of the stored points. |
| Sparse.Visit | src/snoise_3d.c:90-136 | A visit adds exactly the seed's points' terms, whether the cache hits or misses. The slot then records the seed and stays consistent. A hit (seed equals the last seed and is non-zero, with the cache enabled) leaves the slot unchanged. |
| Sparse.WalkStep | src/snoise_3d.c:77-137 | One neighbour visit extends the walk invariant by one cell. |
| Sparse.SNoise | src/snoise_3d.c:58-142 | The cached walk returns the uncached sparse noise for any consistent cache. This holds with the 4D `1 ||` guard too. Afterwards every slot holds the seed of its neighbour cell. |
| Sparse.CellSumNonneg | src/snoise_3d.c:113-116 | With a non-negative kernel on [0, 1), a cell adds a non-negative amount. |
| Sparse.WalkSumNonneg | src/snoise_3d.c:77-139 | With a non-negative kernel, every partial walk sum is non-negative. |
| Sparse.SparseNoiseNonneg | src/snoise_3d.c:58-142 | Sparse noise, the sum of kernel values over the features of the 3^D neighbourhood, is non-negative whenever the kernel is non-negative on [0, 1). |
| Sparse.FarPointsAddNothing | src/snoise_5d.c:130-135 | Points at squared distance 1 or more contribute nothing. |
| Sparse.SeedPeriodic | src/snoise_3d.c:79-87 | A cell's seed depends on each cell coordinate only modulo 1024. |
| Cellular.Start | tags/start/noise-plugin/src/cell_3d.c:93-95 | The search starts valid. Every distance is 999999.9, so the list is sorted, and `order` is a permutation of slots 0..max_order−1. |
| Cellular.ScanDown | tags/start/noise-plugin/src/cell_3d.c:212 | The backward scan `while (index>0 && d2<F[index-1]) index--` stops at or below where it started. |
| Cellular.ScanDownSplits | tags/start/noise-plugin/src/cell_3d.c:211-212 | On a sorted list the scan stops exactly at the split: every entry before it is ≤ d2, and every entry from it on is > d2. |
| Cellular.Splice | tags/start/noise-plugin/src/cell_3d.c:214-222 | The shift-and-insert keeps the list length. |
| Cellular.InsertValid | tags/start/noise-plugin/src/cell_3d.c:209-227 | Inserting a sample closer than the current worst keeps F sorted ascending and `order` a permutation. |
| Cellular.InsertContents | tags/start/noise-plugin/src/cell_3d.c:209-222 | Insertion adds the new distance and drops exactly the old worst one. |
| Cellular.InsertPermutesOrder | tags/start/noise-plugin/src/cell_3d.c:214-222 | The slot indices in `order` are only rearranged: the displaced worst slot is reused for the new sample. |
| Cellular.InsertBelowWorst | tags/start/noise-plugin/src/cell_3d.c:209-222 | After insertion, no distance exceeds the previous worst. |
| Cellular.SpliceContents | tags/start/noise-plugin/src/cell_3d.c:216-221 | Shifting down and writing x replaces the last element by x, as multisets. |
| Cellular.SpliceLast | tags/start/noise-plugin/src/cell_3d.c:214-222 | Re-inserting the last element, as `order` does with `slot = order[max_order-1]`, permutes the sequence. |
| Cellular.InsertPlaces | tags/start/noise-plugin/src/cell_3d.c:209-227 | The sample lands at the scan's index. Its slot records its id and displacement. Everything before it is ≤ d2 and everything after it was > d2. |
| Cellular.InsertSample | tags/start/noise-plugin/src/cell_3d.c:207-228 | The imperative scan, shift and store computes the functional insertion. |
| Cellular.ScanIndex | tags/start/noise-plugin/src/cell_3d.c:211-212 | The scan loop computes ScanDown and ends at a valid index. |
| Cellular.ShiftDown | tags/start/noise-plugin/src/cell_3d.c:214-222 | The `while ((i--)>index)` loop moves entries down one place and writes the new value at `index`, in both F and `order`. |
| Cellular.SpliceIs | tags/start/noise-plugin/src/cell_3d.c:216-222 | A list that agrees with the input before the index, holds x at the index and holds the shifted input after it is the splice. |
| Cellular.CellFeatures | tags/start/noise-plugin/src/cell_3d.c:180-199 | A cell holds `Poisson_count[seed & 255]` features. |
| Cellular.CellFeatures3 | tags/start/noise-plugin/src/cell_3d.c:186-199 | Every feature has three coordinates strictly inside (0, 1). Each coordinate is drawn by one `RANDOM` step and one step separates features. |
| Cellular.Displacement | tags/start/noise-plugin/src/cell_3d.c:201-203 | The displacement from the point to a feature has three components. |
| Cellular.Consider | tags/start/noise-plugin/src/cell_3d.c:205-228 | Offering one feature keeps the search state valid. |
| Cellular.AddSamples | tags/start/noise-plugin/src/cell_3d.c:170-263 | Offering a cell's features in order keeps the search state valid. |
| Cellular.ConsiderLowersWorst | tags/start/noise-plugin/src/cell_3d.c:209 | Offering a feature never raises the worst kept distance, and the list length is unchanged. |
| Cellular.FarSamplesChangeNothing | tags/start/noise-plugin/src/cell_3d.c:209 | Features no closer than the current worst leave the state unchanged. This is the "insert only if d2 < F[max_order-1]" rule. |
| Cellular.AddSamplesLoop | tags/start/noise-plugin/src/cell_3d.c:187-229 | The loop over a cell's features computes the functional fold. |
| Cellular.VisitsAreOffsets | tags/start/noise-plugin/src/cell_3d.c:127-154 | The 27 visits are offset vectors in {−1,0,1}^3. |
| Cellular.Offsets3 | tags/start/noise-plugin/src/cell_3d.c:127-154 | The n-th offset in x-fastest order is (n mod 3 − 1, ⌊n/3⌋ mod 3 − 1, ⌊n/9⌋ mod 3 − 1). |
| Cellular.VisitOfSlot | tags/start/noise-plugin/src/cell_3d.c:127-154 | Every neighbour offset appears among the source's 27 visits. |
| Cellular.VisitsCoverNeighbourhood | tags/start/noise-plugin/src/cell_3d.c:127-154 | Every one of the 27 neighbour cells is among the visits. |
| Cellular.CellFraction | tags/start/noise-plugin/src/cell_3d.c:105-107 | `ma = at − int_at` lies in [0, 1] on every axis. |
| Cellular.AxisBoundBelow | tags/start/noise-plugin/src/cell_3d.c:108-113 | On one axis, the pruning term (0, (1−ma)² for +1, ma² for −1) never exceeds the squared distance to a feature in that neighbour. |
| Cellular.SqDist3 | tags/start/noise-plugin/src/cell_3d.c:205 | The squared distance is dx² + dy² + dz². |
| Cellular.NeighbourCell | tags/start/noise-plugin/src/cell_3d.c:115-121 | A neighbour cell has three coordinates. |
| Cellular.VisitCell | tags/start/noise-plugin/src/cell_3d.c:127-154 | Each visit names a three-coordinate cell. |
| Cellular.AxesBelow | tags/start/noise-plugin/src/cell_3d.c:129-154 | The sum of the per-axis pruning terms is at most the squared distance. |
| Cellular.VisitOffset | tags/start/noise-plugin/src/cell_3d.c:201-203 | Each visit's offset has three components. |
| Cellular.NeighbourOffsetFraction | tags/start/noise-plugin/src/cell_3d.c:101-107 | The offset from the point to neighbour o's origin is o − ma on every axis. |
| Cellular.LowerBoundSound | tags/start/noise-plugin/src/cell_3d.c:129-154 | Each pruning test's left side is a lower bound on the squared distance from the point to any feature in that neighbour cell. |
| Cellular.Visited | tags/start/noise-plugin/src/cell_3d.c:127-154 | A visit, pruned or not, keeps the state valid and its length. |
| Cellular.SearchFrom | tags/start/noise-plugin/src/cell_3d.c:127-154 | The remaining visits keep the state valid and its length. |
| Cellular.SearchStep | tags/start/noise-plugin/src/cell_3d.c:127-154 | The search is the visits in source order. |
| Cellular.AddSamplesKeepsSize | tags/start/noise-plugin/src/cell_3d.c:170-263 | A cell's features never change the number of kept distances. |
| Cellular.PrunedVisitIsExact | tags/start/noise-plugin/src/cell_3d.c:129-154 | Skipping a neighbour whose lower bound is not below F[max_order−1] gives the same state as visiting it. |
| Cellular.PruningIsExact | tags/start/noise-plugin/src/cell_3d.c:127-154 | The pruned search computes exactly what visiting all 27 cells computes. |
| Cellular.ConsiderKeeps | tags/start/noise-plugin/src/cell_3d.c:209-227 | After a feature is offered, its distance is kept or is no better than the worst kept. Anything already kept in that sense stays so. |
| Cellular.InsertKeeps | tags/start/noise-plugin/src/cell_3d.c:209-227 | Insertion puts the new distance in F and preserves what was kept. |
| Cellular.AddSamplesKeeps | tags/start/noise-plugin/src/cell_3d.c:170-263 | Processing a cell preserves what was kept. |
| Cellular.AddSamplesFinds | tags/start/noise-plugin/src/cell_3d.c:170-263 | Every feature of a processed cell is kept, or is no closer than the worst kept distance. |
| Cellular.SearchKeeps | tags/start/noise-plugin/src/cell_3d.c:127-154 | The remaining visits preserve what was kept. |
| Cellular.VisitKeeps | tags/start/noise-plugin/src/cell_3d.c:127-154 | A visit preserves what was kept. |
| Cellular.VisitFinds | tags/start/noise-plugin/src/cell_3d.c:127-154 | Every feature of a visited cell survives the rest of the search, in the kept sense. |
| Cellular.SearchFinds | tags/start/noise-plugin/src/cell_3d.c:127-154 | Every feature of any cell still to be visited survives to the end. |
| Cellular.Output | tags/start/noise-plugin/src/cell_3d.c:157-164 | Entry i of the output is sqrt(F[i]) together with the id and displacement of that same feature, taken through order[i]. |
| Cellular.Search | tags/start/noise-plugin/src/cell_3d.c:82-154 | The search ends in a valid state with max_order distances. |
| Cellular.NearestAreFound | tags/start/noise-plugin/src/cell_3d.c:82-164 | Every feature in the 27 cells around the point is among the reported max_order nearest, or is no closer than the last of them. |
| Cellular.NearestFirst | tags/start/noise-plugin/src/cell_3d.c:157-158 | The reported distances ascend (F1 ≤ F2 ≤ …) for any non-decreasing square root. |
| Cellular.InsertEntries | tags/start/noise-plugin/src/cell_3d.c:209-227 | Insertion splices the new (distance, id, displacement) entry into the list of kept entries at the scan's index and drops the last, keeping the slots distinct. |
| Cellular.InsertAccounts | tags/start/noise-plugin/src/cell_3d.c:209-227 | Inserting a candidate closer than the worst entry keeps the account: the kept entries stay drawn from the candidates seen, and every candidate left out stays no closer than the worst kept. |
| Cellular.SwapKeepsAccount | tags/start/noise-plugin/src/cell_3d.c:209-227 | Replacing the worst kept entry by a closer candidate keeps every kept entry accounted for by a seen candidate, and every unkept candidate no closer than the new worst. |
| Cellular.SkipKeepsAccount | tags/start/noise-plugin/src/cell_3d.c:209 | Skipping a candidate no closer than the worst keeps that account. |
| Cellular.ConsiderAccounts | tags/start/noise-plugin/src/cell_3d.c:205-228 | Offering one feature keeps the kept entries a sub-multiset of the candidates seen, with every unkept candidate no closer than the worst kept. |
| Cellular.AddSamplesAccounts | tags/start/noise-plugin/src/cell_3d.c:170-263 | Processing a cell extends that account by the cell's candidates. |
| Cellular.SearchAccounts | tags/start/noise-plugin/src/cell_3d.c:127-154 | The remaining visits extend the account by the candidates of every cell still to be visited, pruned or not. |
| Cellular.StartAccounts | tags/start/noise-plugin/src/cell_3d.c:93-95 | The initial list accounts for itself, and every initial entry has the sentinel distance 999999.9. |
| Cellular.SearchAccountsAll | tags/start/noise-plugin/src/cell_3d.c:82-154 | The pruned search accounts for the initial entries plus the candidates of all 27 neighbour cells. |
| Cellular.AccountedBelowFar | tags/start/noise-plugin/src/cell_3d.c:82-164 | Once the sentinel entries are set aside, every kept entry closer than the sentinel is a seen candidate, and every unkept candidate is no closer than the worst kept. |
| Cellular.NearestAreVisited | tags/start/noise-plugin/src/cell_3d.c:82-164 | Every reported entry closer than the sentinel is, with its id and displacement, a feature of one of the 27 neighbour cells (counted with multiplicity). Every feature not reported is no closer than the last reported. |
| Cellular.EmptyCellCache | tags/start/noise-plugin/src/cell_3d.c:70-76 | The calloc'd cache has 27 slots, each with last seed 0. |
| Cellular.EmptyCellCacheConsistent | tags/start/noise-plugin/src/cell_3d.c:70-76 | A zeroed cache is consistent. |
| Cellular.DrawFeatures | tags/start/noise-plugin/src/cell_3d.c:186-199 | The drawing loop produces the seed's features. |
| Cellular.Fetch | tags/start/noise-plugin/src/cell_3d.c:180-260 | Hit or miss, the cell's features are those of its seed. The slot records the seed. A hit (seed equals the last seed and is non-zero) leaves the slot unchanged. |
| Cellular.CellsStep | tags/start/noise-plugin/src/cell_3d.c:129-154 | One cached, pruned visit gives the uncached visit's state and keeps the cache consistent. |
| Cellular.StoreKeepsConsistent | tags/start/noise-plugin/src/cell_3d.c:183-184 | Storing a slot that holds its seed's features keeps the cache consistent. |
| Cellular.Cells3DCached | tags/start/noise-plugin/src/cell_3d.c:82-167 | Cells3D with its cache returns exactly the uncached result for any consistent cache. |
| Fractal.Block | src/basis.c:621-733 | Each basis function owns a block of 9 dispatch entries. |
| Fractal.BlockAt | src/basis.c:621-733 | Entry j of a block is dimension j mod 3 + 3 with kind ⌊j/3⌋ (FBM, MF1, MF2), as the table lists them. |
| Fractal.DispatchSelects | src/basis.c:744 | For a valid basis, dimension and kind, `basis*9 + (dim-3) + multi*3` lies in [0, 81) and selects the routine of that basis, dimension and kind. |
| Fractal.DispatchCovers | src/basis.c:744 | Every table index is the dispatch index of exactly the choice the calibration loop decodes from it (i/9, i%3+3, (i/3)%3). |
| Fractal.SwitchData | src/basis.c:746-758 | Per-basis data is released and acquired only when no data is present or the index changes. Afterwards the slot holds the new index, and data is present exactly when that routine has an initialiser. |
| Fractal.SwitchDataIdempotent | src/basis.c:747 | Switching to the routine already selected does nothing. |
| Fractal.DeinitData | src/basis.c:844-858 | Teardown releases the data that is present, and nothing else. |
| Fractal.SplitOctaves | src/basis.c:761-762 | octaves = floor(p) and frac = p − octaves. The count is incremented exactly when frac > 0.0001 (lines 804-807). |
| Fractal.RawWeights | src/basis.c:768-780 | One weight is computed for each of octaves + 1 octaves. |
| Fractal.SumScale | src/basis.c:798-801 | Dividing every weight by a constant divides their sum by it. |
| Fractal.Normalise | src/basis.c:798-801 | FBM normalisation is defined exactly when the sum is non-zero. The normalised weights total 1, and each is its raw weight over the sum. |
| Fractal.Configure | src/basis.c:760-807 | SwitchBasis's weight set-up: the octave split, the lacunarity, octaves + 1 weights, the multifractal exponent log 0.5 / log scaling, and, in FBM mode, weights summing to 1. |
| Fractal.WeightLoopStep | src/basis.c:773-789 | One weight-loop iteration advances freq to lac^(i+1), appends weight i, and multiplies (multifractal) or adds (FBM) it into the scaling. |
| Fractal.WeightLoop | src/basis.c:770-789 | The loop computes weight[i] = pow(lac^i, −4·hurst), with the last scaled by frac. The scaling is Π(1 − 0.5·w[i]) in multifractal mode and Σ w[i] otherwise. |
| Fractal.DivideWeights | src/basis.c:798-801 | The division loop scales every weight by 1/scaling. |
| Fractal.SwitchBasisWeights | src/basis.c:760-807 | The imperative weight set-up computes Configure. |
| Fractal.WeightsInUnit | src/basis.c:770-780 | With lacunarity ≥ 1 and hurst ≥ 0, every weight lies in [0, 1], and the first is 1 when there is a whole octave. |
| Fractal.FirstWeightPositive | src/basis.c:770-780 | When at least one octave runs, the first weight is positive. |
| Fractal.FbmWeightsDefined | src/basis.c:798-801 | With at least one octave, the FBM sum is positive, so normalisation never divides by zero. |
| Fractal.ProductBelowFirst | src/basis.c:783 | A product of factors in (0, 1] is positive and at most its first factor. |
| Fractal.MultiExponentDefined | src/basis.c:781-795 | With at least one octave, the multifractal scaling lies in (0, 1), so log scaling < 0 and the exponent is a positive number. |
| Fractal.Exponent | src/basis.c:794 | The multifractal exponent exists exactly when log(scaling) ≠ 0, and then it is the power that turns scaling into 1/2. |
| Fractal.OctavePoint | src/basis.c:97-105 | Octave i samples the point multiplied by lac^i and shifted by i · 37.687322 on every axis. |
| Fractal.OctaveLoop | src/basis.c:89-107 | The octave loop of a routine accumulates its mix over `count` octaves and returns the routine's final output. |
| Fractal.AccumulateZeroWeights | src/basis.c:97-105 | Octaves whose weights are all zero leave the starting value in place: 0 for fBm, 1 for the multifractals. |
| Fractal.AccumulateStep | src/basis.c:97-105 | Each octave mixes the sample at that octave's point into the running value with that octave's weight. |
| Fractal.MixFbm | src/basis.c:161 | In FBM mode an octave adds its sample times its weight. |
| Fractal.FbmAsLevelsPlain | src/basis.c:155-161 | The plain FBM output (value − MID)·FAC equals the weighted sum of the per-octave levels (sample − MID)·FAC when the weights total 1. |
| Fractal.FbmAsLevelsTurb | src/basis.c:165-177 | The turbulent FBM output value·(2·FAC) − 0.5 equals the weighted sum of the per-octave levels when the weights total 1. |
| Fractal.FbmIsWeightedMean | src/basis.c:155-177 | Provided the weights of the octaves run total 1, an FBM routine's output is the weighted mean of its per-octave levels. Fractal.RunWeights says when SwitchBasis meets that premise. |
| Fractal.LevelSumBounded | src/basis.c:87 | Levels within [−0.5, 0.5] and non-negative weights give a weighted level sum within ±0.5 times the weight total. |
| Fractal.FbmOutputRange | src/basis.c:87 | Provided the weights of the octaves run are non-negative and total 1, and each octave's level lies in [−0.5, 0.5], the FBM output lies in [−0.5, 0.5]. |
| Fractal.FbmOffset | src/basis.c:155-177 | Whatever the weights total, an FBM output is the weighted level sum minus the shortfall: MID·FAC (plain) or 1/2 (turbulent) times the weight missing from 1. |
| Fractal.PlainFbmOffset | src/basis.c:155-161 | The plain output (value − MID)·FAC falls short of the weighted level sum by MID·FAC times the weight missing from 1. |
| Fractal.TurbFbmOffset | src/basis.c:164-176 | The turbulent output value·(2·FAC) − 0.5 falls short of the weighted level sum by 1/2 times the weight missing from 1. |
| Fractal.TurbulentOutputRange | src/basis.c:164-176 | A turbulent FBM output stays in [−0.5, 0.5] whenever its non-negative weights total at most 1, so a dropped octave cannot push it out. |
| Fractal.NormaliseSign | src/basis.c:796-801 | A weight divided by the sum has the sign of the raw weight, and is 0 exactly where the raw weight is. |
| Fractal.RunWeights | src/basis.c:760-807 | With a fraction of 0 or above 0.0001, the weights of the octaves the loop runs total 1. With a fraction in (0, 0.0001], the loop runs `whole` octaves and their weights total 1 minus the dropped weight. |
| Fractal.DroppedWeightPositive | src/basis.c:773-807 | With a fraction in (0, 0.0001], the dropped weight is positive, so the octaves run total strictly less than 1. |
| Fractal.ConfiguredFbmRange | src/basis.c:760-807 | With the weights SwitchBasis configures and a fraction of 0 or above 0.0001, an FBM routine whose levels lie in [−0.5, 0.5] returns a value in [−0.5, 0.5]. |
| Fractal.MixIsFactor | src/basis.c:300-303 | A multifractal octave multiplies the value by MULTI_MIX or TURB_MIX, which are 1 + (±level − 0.5)·w. |
| Fractal.Factor | src/basis.c:300-303 | A zero octave weight leaves the running product unchanged (factor 1). |
| Fractal.FactorInUnit | src/basis.c:300-303 | For a level in [−0.5, 0.5] and a weight in [0, 1], each mixing factor lies in [0, 1]. |
| Fractal.MfValueInUnit | src/basis.c:162-163 | The multifractal product stays within [0, 1], so pow(value, exponent) is defined. |
| Fractal.MiddleFactor | src/basis.c:300-301 | At the middle level, a mixing factor is 1 − 0.5·w. |
| Fractal.MiddleStep | src/basis.c:97-105 | At the middle level, each octave multiplies the value by 1 − 0.5·w[i]. |
| Fractal.ScalingPrefix | src/basis.c:783 | The scaling over n weights is the scaling over n − 1 times 1 − 0.5·w[n−1]. |
| Fractal.MfMiddleIsScaling | src/basis.c:781-784 | If every octave sits at the middle level, the multifractal product equals the scaling SwitchBasis computed. |
| Fractal.MfMiddleMapsToZero | src/basis.c:792-795 | With exponent = log 0.5 / log scaling, a signal at the middle level in every octave comes out as pow(scaling, exponent) − 0.5 = 0. This is what the exponent is chosen for. |
| Fractal.MappingDim | src/basis.c:823-839 | Planar mapping uses 3 dimensions, spherical 4 and tiled 5, one fewer when the phase is ignored and dim > 3. Radial leaves dim at 0. |
| Fractal.MappingDimInjective | src/basis.c:823-834 | With the phase kept, distinct mappings use distinct dimensions. |
| Fractal.InitBasis | src/basis.c:812-842 | InitBasis builds a permutation table from the seed. It selects the routine for the state's basis, dimension and kind, and sets up the weights from the state's octaves, lacunarity and hurst. |
| Fractal.GetBasis | src/basis.c:860-864 | The sampler returned is the table entry of the current index. |
| Tone.Saturate | src/render.c:162-187 | gain, bias and pinch are clamped to [−1, 1]. |
| Tone.Level | src/render.c:190-191 | `p·0.499 + 0.5` maps [−1, 1] into [0.001, 0.999], strictly inside (0, 1). It is 1/2 exactly when p = 0. |
| Tone.LevelMonotone | src/render.c:190-191 | A larger parameter gives a larger level. |
| Tone.BiasFrom | src/render.c:193-196 | The bias coefficients computed from a level in (0, 1) are valid: the denominator stays positive on [0, 1]. |
| Tone.PinchSingularOnly | src/render.c:198-206 | The pinch divisor 2·tmp + 1 vanishes for exactly one level, 1/3. That level lies inside the clamp range (pinch = −500/1497), and the model keeps it out explicitly. No `float` equals it exactly. |
| Tone.PinchSingularSetting | src/render.c:190-206 | The pinch parameter −500/1497 lies inside the clamp range and maps onto the singular level. |
| Tone.PinchFrom | src/render.c:198-206 | The five pinch coefficients for any non-singular level are valid. |
| Tone.BiasDenFacts | src/render.c:772 | On [0, 1] the bias denominator is positive and at least the value, strictly more below 1. |
| Tone.Bias | src/render.c:772 | The bias step maps [0, 1] into [0, 1], and (0, 1) into (0, 1). |
| Tone.SchlickBias | src/render.c:193-196 | The reference Schlick bias x / ((1/b − 2)(1 − x) + 1) maps [0, 1] into [0, 1]. |
| Tone.BiasIsSchlick | src/render.c:193-196 | The coefficient form of the bias step equals Schlick's bias function at the same level. |
| Tone.BiasIsSchlickAll | src/render.c:193-196 | The same holds for every value in [0, 1]. |
| Tone.PinchLowerHalf | src/render.c:774-777 | Below 1/2, the pinch step is half a Schlick bias of 2v. |
| Tone.PinchUpperHalf | src/render.c:778-781 | From 1/2 on, the pinch step is 1 − half a Schlick bias of 2 − 2v. |
| Tone.PinchIsSchlickGain | src/render.c:198-206 | The two-branch coefficient form of pinch equals Schlick's gain function. |
| Tone.PinchIsSchlickGainAll | src/render.c:198-206 | The same holds for every value in [0, 1]. |
| Tone.SchlickBiasAtHalf | src/render.c:190-196 | Bias moves 1/2 to its level. |
| Tone.SchlickBiasShape | src/render.c:772 | Bias is strictly increasing on [0, 1], fixes the ends, and keeps the inside inside. |
| Tone.SchlickGainAtHalf | src/render.c:774-781 | Pinch fixes 1/2. |
| Tone.SchlickGainSymmetric | src/render.c:774-781 | Pinch is point-symmetric about (1/2, 1/2). |
| Tone.SchlickGainMonotone | src/render.c:774-781 | Pinch is strictly increasing on [0, 1]. |
| Tone.SchlickGainRange | src/render.c:774-781 | Pinch keeps (0, 1) inside (0, 1). |
| Tone.LevelsOf | src/render.c:189-191 | Both tone levels lie strictly inside (0, 1) for any parameters. |
| Tone.PrecalcTone | src/render.c:156-223 | The tone coefficients are pow(6, gain), the bias and pinch coefficients of the clamped levels, and the average, which is the shape of 0. |
| Tone.ShapeIsSchlick | src/render.c:764-782 | The coefficient pipeline equals the Schlick pipeline on the clamped, gained value. |
| Tone.ShapeRange | src/render.c:764-782 | The shaped value always lies strictly inside (0, 1). |
| Tone.SchlickShapeMonotone | src/render.c:770-782 | Between the clamp edges, the Schlick pipeline is strictly increasing. |
| Tone.ShapeMonotoneInside | src/render.c:764-782 | With positive gain, the tone shaper is strictly increasing while the gained value stays between the clamp edges. |
| Tone.GainedOrder | src/render.c:764 | `value·gain + 0.5` is increasing for positive gain. |
| Tone.ShapeNeutral | src/render.c:189-207 | With gain = bias = pinch = 0, the shaper is just the clamp of v + 1/2 to [1/1024, 1 − 1/1024]. |
| Tone.NeutralShapeAt | src/render.c:189-207 | With bias = pinch = 0, both curves are the identity. |
| Tone.AverageNeutral | src/render.c:209-222 | With bias = pinch = 0, the precomputed average is 1/2. |
| Tone.NeutralLevels | src/render.c:190-191 | Zero parameters give the levels 1/2, 1/2. |
| Tone.SchlickNeutral | src/render.c:189-207 | At level 1/2, bias and pinch are the identity. |
| Tone.ShapeJumpsAtClamp | src/render.c:766-772 | The shaper is not monotone across the lower clamp edge: with bias at −1, a value just below the edge shapes higher than one just above it. |
| Tone.AverageIsShapeOfZero | src/render.c:209-222 | The precomputed average is the shaped value of a zero sample. |
| Tone.FnModeInjective | src/render.c:48 | `FN_MODE(f, r) = 2f + r` is injective for r ∈ {0, 1}: halving recovers f, and the parity recovers r. |
| Tone.Wave | src/render.c:784-824 | An output function exists exactly for the eight known modes. Any other `function_mode` gives −1 (no value). |
| Tone.WaveReverse | src/render.c:786-820 | The reverse variant of each function is one minus the forward one. |
| Tone.Output | src/render.c:784-828 | The output function plus the shift is defined exactly for the eight known modes. |
| Tone.PrecalcOutput | src/render.c:140-154 | The mode is FN_MODE(function, reverse). The shift fmod(s/100, 1) lies in [0, 1) for a non-negative shift. Sine and half-sine scale the frequency by 2π. |
| Tone.FracPartInUnit | src/render.c:787 | fmod(x, 1) of a non-negative x lies in [0, 1). |
| Tone.OutputInUnit | src/render.c:784-828 | For a shaped value in (0, 1), a non-negative frequency and a shift in [0, 1), every known output mode gives a value in [0, 1]. The shift wraps at 1. |
| Tone.AddShift | src/render.c:826-828 | The shift adds to the value and wraps once past 1, so a value and a shift in [0, 1] stay in [0, 1]. |
| Tone.GradientEntryInRange | src/render.c:837 | For a value in [0, 1], `(int)(511·value)` indexes the 512-sample gradient. It is the last entry only at 1. |
| Tone.CausticFactorIsGain | src/render.c:228-250 | The caustics coefficient is −2·(g − 1/2), where g is the gain curve of the clamped (c + 100) / 200. |
| Tone.CausticGainShape | src/render.c:239-248 | The caustics gain curve is non-decreasing and stays in [0, 1]. |
| Tone.CausticGainSymmetric | src/render.c:239-248 | The caustics gain curve is point-symmetric about 1/2. |
| Tone.CausticFactorShape | src/render.c:228-250 | The caustics factor is non-increasing in the setting, lies in [−1, 1], is 0 at 0 and is odd. |
| Tone.CausticFactor | src/render.c:228-250 | Caustics at or below −100 give factor 1. At or above 100 they give −1. |
| Tone.RampEndAsWritten | src/render.c:299-302 | As written, the fg−bg difference subtracts bg.b from g and bg.g from b. A black foreground on a green background does not end the ramp at the foreground colour, in colour or in grey. |
| Tone.RampEnds | src/render.c:306-326 | With the difference taken channel by channel, the ramp starts at the background and ends at the foreground, in colour and in grey. Every entry is the linear blend. |
| Tone.GradientChoice | src/render.c:258-298 | The sampled gradient is used exactly when the source is the gradient and sampling succeeded. Otherwise the fg/bg ramp is used. |
| Tone.GreyInPlace | src/render.c:280-284 | The in-place grey conversion writes luminance (0.30, 0.59, 0.11) and alpha pairs over the first half and leaves the second half alone. |
| Tone.Mask | src/render.h:30-40 | The dirty word is a sum of distinct flag bits within DIRTY_ALL = 511. |
| Tone.MaskExtremes | src/render.h:30-40 | The word is 0 exactly for no flags and 511 exactly for all nine. |
| Tone.SetDirty | src/render.c:352-355 | `dirty \|= bits` keeps every old flag, adds the new ones and nothing else. |
| Tone.RecomputedUnion | src/render.c:86-258 | The stages recomputed after OR-ing are those of the old mask together with those of the new bits. |
| Tone.SetDirtyIdempotent | src/render.c:352-355 | Marking the same bits twice is marking them once. |
| Tone.RecomputedExtremes | src/render.c:86-258 | `~0` recomputes every stage, and 0 recomputes none. |
| Tone.RecomputedSingle | src/render.c:86-258 | One flag recomputes exactly the stages whose guard mentions it. |
| Tone.RecomputedSetters | src/render.c:97-258 | DIRTY_BUFFER_TYPE recomputes the region origin, polar set-up and gradient. DIRTY_REGION_PARAMS recomputes the first two. |
| Tone.RecomputedTone | src/render.c:92-225 | DIRTY_GAIN_PINCH_BIAS recomputes only the tone curve. DIRTY_FEATURE_SIZE recomputes pixel size, region origin and caustics. |
| Tone.MarkAllDirty | src/render.c:336-349 | `dirty = ~0` schedules every stage and touches nothing else. |
| Tone.SetRenderBufferMode | src/render.c:368-386 | Raw mode takes the caller's stride, colour mode 4 and grey mode 2, and an unknown mode keeps the stride. The write mode is set, and the buffer-type stages are scheduled. |
| Tone.SetRenderRegion | src/render.c:417-425 | A new region schedules the region origin and polar stages. |
| Tone.FinishPrecalc | src/render.c:331 | After PrecalcRenderStuff nothing is dirty. |
| Preset.Zeros | trunk/noise-plugin/src/main.c:215-217 | The cleared gradient digest is sixteen zero bytes. |
| Preset.KeywordTable | src/loadconf.c:59-88 | No two keywords match each other ignoring case, so the first-match lookup never shadows a keyword. |
| Preset.TablesAreTables | trunk/noise-plugin/src/main.c:67-80 | The same holds for every value-name table: mapping, basis, function, multifractal, channel, alpha, colour source, warp quality and edge action names. |
| Preset.FindName | src/loadconf.c:34-51 | A found position is an index of the table. |
| Preset.FindNameFirstMatch | src/loadconf.c:39-50 | The lookup returns the first entry equal to the value ignoring case, and returns nothing exactly when no entry matches. |
| Preset.GetByName | src/loadconf.c:34-51 | The result is a table index or the caller's default. |
| Preset.GetByNameFirstMatch | src/loadconf.c:34-51 | When some entry matches ignoring case, the result is the first such index. When none matches, the result is the default. |
| Preset.FindNameOfEntry | src/loadconf.c:34-51 | In a table with no case-insensitive duplicates, any spelling of entry i is found at i. |
| Preset.GetByNameOfEntry | src/loadconf.c:34-51 | Looking up a table's own entry i gives back i, whatever the default. |
| Preset.GetFloat | src/loadconf.c:54 | The value atof reads is clamped: it is kept inside [min, max], replaced by min below it and by max above it. |
| Preset.GetInt | src/loadconf.c:53 | The integer form of the same clamp. |
| Preset.ToUnsigned | src/loadconf.c:101-102 | The seed atoi reads is stored into an unsigned 32-bit field. The stored value lies in [0, 2^32) and is congruent to the read value modulo 2^32. |
| Preset.StoreGradientName | trunk/noise-plugin/src/main.c:207-218 | With no name, the digest is cleared to zeros. |
| Preset.EdgeValue | src/loadconf.c:180-182 | With the edge name table aligned to GIMP's numbering (the corrected table), a recognised name sets one of the four GIMP edge modes 1..4. An unrecognised name keeps the previous mode. |
| Preset.EdgeValueAsWritten | src/loadconf.c:180-182 | With the table as written, a recognised name loads as its table index (0..3), so "warp" loads as 0. An unrecognised name keeps the previous mode. |
| Preset.SetValue | src/loadconf.c:90-197 | An unknown key leaves the state unchanged. No key touches the dialog's link and preview flags. |
| Preset.Apply | src/loadconf.c:98-196 | A keyword index outside the table falls through the switch and leaves the state unchanged. No case touches the dialog flags. |
| Preset.DefaultsWellFormed | trunk/noise-plugin/src/main.c:83-124 | The default state has every parameter in its range and every enumerated field inside its table. |
| Preset.ApplyWellFormed | src/loadconf.c:98-196 | Every case of the switch keeps a well-formed state well-formed, whatever text the value holds. |
| Preset.SetValueWellFormed | src/loadconf.c:90-197 | Applying any key and value keeps the state well-formed. |
| Preset.SetValueSideEffects | src/loadconf.c:101-186 | seed clears random_seed, and phase clears ign_phase. A channel key selects the channel source, a warp key the warp source, and gradient the gradient source together with the name's digest. |
| Preset.SplitLine | src/loadconf.c:204-214 | A line is skipped exactly when it is blank or its first non-space character is '#'. A parsed key holds no ':'. A value is present exactly when the line has a ':'. |
| Preset.TrimKeepsColon | src/loadconf.c:204-211 | Trimming the line's ends neither adds nor removes a ':'. |
| Preset.StripKeeps | src/loadconf.c:213-214 | Stripping a token adds no character. |
| Preset.ColonSurvivesTrim | src/loadconf.c:209-211 | A line with a ':' still has it once chug and chomp have run. |
| Preset.ParseIncrementalGuarded | src/loadconf.c:199-219 | The guarded parse ignores a line without ':'. On every line with a ':' it agrees with the code as written. |
| Preset.ParseIncremental | src/loadconf.c:199-219 | The model's reader: a line without ':' leaves the state unchanged, and no line touches the dialog flags. |
| Preset.ParseIncrementalAsWritten | src/loadconf.c:199-219 | The code as written: on a line with ':' it is the model's reader, and it can be undefined only on a line without ':', where the NULL value reaches SetValue. |
| Preset.SetValueAsWritten | src/loadconf.c:90-197 | With a value it is SetValue. With the NULL value it is undefined exactly for a known keyword other than gradient. |
| Preset.SplitLineBare | src/loadconf.c:211-214 | A trimmed word without ':' splits into the key alone, with no value token. |
| Preset.BareSeedLine | src/loadconf.c:211-216 | A bare "seed" line makes the code as written pass a missing token to atoi. The guarded parse ignores the line. |
| Preset.BareGradientLine | src/loadconf.c:211-216 | A bare "gradient" line makes the code as written clear the digest and select the gradient source. The guarded parse ignores the line. |
| Preset.ParseIncrementalWellFormed | src/loadconf.c:199-219 | Parsing any line with the model's reader keeps the state well-formed and leaves the dialog flags unchanged. |
| Preset.ParseLinesWellFormed | src/loadconf.c:242-245 | Parsing any sequence of lines with the model's reader keeps the state well-formed. |
| Preset.PieceLength | src/loadconf.c:271 | fgets takes at most 1023 characters (bytes, for ASCII text). It stops just after the first line feed, or at the end of the text. |
| Preset.Fgets | src/loadconf.c:266-274 | Every piece the loop reads is non-empty and at most 1023 characters long. |
| Preset.PieceOfLine | src/loadconf.c:271 | A line shorter than the buffer is read whole, line feed included. |
| Preset.FgetsJoinLines | src/loadconf.c:271-274 | A text of short lines is read back as exactly those lines, each with its line feed. |
| Preset.ReadPieces | src/loadconf.c:264-277 | Whatever the file holds, the model's reader leaves a well-formed state. The size links are set exactly when the two sizes are equal, and the preview flag keeps its default. |
| Preset.ParseEmpty | src/loadconf.c:228-251 | An empty configuration string gives the defaults. |
| Preset.PostParse | src/loadconf.c:221-226 | The size links are set exactly when the two sizes are equal, the warp links exactly when the two warp sizes are equal, and nothing else changes. |
| Preset.ParseConfig | src/loadconf.c:228-251 | The result is well-formed, with both links set exactly when their sizes agree. An empty configuration gives the defaults. |
| Preset.LoadConfig | src/loadconf.c:253-284 | The state loaded from any file text is well-formed, with both links set exactly when their sizes agree. |
| PresetSave.Line | src/saveconf.c:52-99 | Each line is a keyword with its ':' padded to column 15, followed by the value. |
| PresetSave.Signed32 | src/saveconf.c:52 | "%i" prints the unsigned seed as a signed 32-bit integer, and storing that integer as unsigned gives the seed back. |
| PresetSave.YesNo | src/saveconf.c:63 | The word written for reverse reads back as the same boolean under GET_BOOL. |
| PresetSave.EdgeNameAsWritten | src/saveconf.c:70 | Indexing edge_action_names with the mode yields a name only for indices 0..3, and every name it yields is a table entry. |
| PresetSave.EdgeName | src/saveconf.c:70 | With the corrected table, every GIMP edge mode 1..4 has a name. |
| PresetSave.EdgeNamesAsWritten | trunk/noise-plugin/src/main.c:80 | The table starts at "warp", but GIMP numbers wrap as 1. So background (4) picks the NULL that ends the table, wrap is saved as "smear", and "warp" loads as mode 0. |
| PresetSave.EdgeNameRoundTrip | src/loadconf.c:180-182 | With the name table aligned to GIMP's numbering, every edge mode saved by name loads back as itself. |
| PresetSave.EdgeRoundTripAsWritten | src/saveconf.c:70 | With the table as written, each mode 0..3 saved by name loads back as itself: the save and load misalign with GIMP's numbering, not with each other. |
| PresetSave.WellFormedSavable | src/saveconf.c:61-99 | A well-formed state indexes every name table within bounds. |
| PresetSave.SeedEntries | src/saveconf.c:50-53 | The seed line is keyed by a keyword. |
| PresetSave.ScaleEntries | src/saveconf.c:54-60 | The seven scale lines are keyed by keywords. |
| PresetSave.StyleEntries | src/saveconf.c:61-64 | The mapping, basis, reverse and function lines are keyed by keywords. |
| PresetSave.PhaseEntries | src/saveconf.c:65-68 | The phase line is keyed by a keyword. |
| PresetSave.ModeEntries | src/saveconf.c:69-70 | The multifractal and edge lines are keyed by keywords. The edge value is the corrected table's name. |
| PresetSave.LevelEntries | src/saveconf.c:72-74 | The pinch, bias and gain lines are keyed by keywords. |
| PresetSave.ChannelEntries | src/saveconf.c:90-93 | The four channel lines are keyed by keywords. |
| PresetSave.WarpEntries | src/saveconf.c:96-99 | The four warp lines are keyed by keywords. |
| PresetSave.SourceEntries | src/saveconf.c:76-101 | The colour-source lines are keyed by keywords. |
| PresetSave.Entries | src/saveconf.c:50-101 | Every line SaveConfig writes between header and trailer is keyed by a keyword the loader knows. |
| PresetSave.EntryLines | src/saveconf.c:50-101 | One text line per entry. |
| PresetSave.KeyFacts | src/loadconf.c:204-214 | A keyword survives trimming and splitting intact: it has no surrounding space, no ':', no leading '#' and no separator. |
| PresetSave.KeywordLengths | src/loadconf.c:59-88 | Every keyword fits the 14 columns before the padded ':'. |
| PresetSave.KeywordsAreKeys | src/loadconf.c:59-88 | Every keyword is a key in the sense above. |
| PresetSave.SplitAtKey | src/loadconf.c:211 | Splitting "key:rest" at the first ':' gives the key and the rest. |
| PresetSave.ChompTail | src/loadconf.c:209 | Chomping removes the line feed fgets keeps, and nothing else. |
| PresetSave.SplitLineAt | src/loadconf.c:204-214 | A non-comment line whose trimmed text splits at its first ':' is read as the stripped key and the stripped value. |
| PresetSave.SplitSavedLine | src/loadconf.c:204-214 | Every saved line, with or without its line feed, is read back as its own keyword and value. |
| PresetSave.SkippedLine | src/loadconf.c:206-207 | An empty line or a comment line is skipped. |
| PresetSave.ParseEntryLines | src/loadconf.c:199-219 | Parsing the written entry lines applies exactly those entries in order. |
| PresetSave.SeedRestored | src/saveconf.c:50-53 | A written seed is restored and clears random_seed. A random seed writes nothing and leaves the state alone. |
| PresetSave.ScalesRestored | src/saveconf.c:54-60 | The seven scale values in range read back exactly when their decimal text does. |
| PresetSave.ScalesFirst | src/saveconf.c:54-57 | The first four scale lines restore sizes, octaves and lacunarity. |
| PresetSave.ScalesLast | src/saveconf.c:58-60 | The last three restore hurst, frequency and shift. |
| PresetSave.Lookups | src/loadconf.c:34-51 | In any table without case-insensitive duplicates, every entry's own name looks up to its index. |
| PresetSave.StoreMapping | src/loadconf.c:126-128 | The mapping key sets only the mapping, by name, keeping it on an unknown name. |
| PresetSave.StoreBasis | src/loadconf.c:129-131 | The basis key sets only the basis. |
| PresetSave.StoreReverse | src/loadconf.c:135-137 | The reverse key sets only the reverse flag, by GET_BOOL. |
| PresetSave.StoreFunction | src/loadconf.c:138-140 | The function key sets only the output function. |
| PresetSave.StoreMultifractal | src/loadconf.c:145-147 | The multifractal key sets only the multifractal mode. |
| PresetSave.StoreEdge | src/loadconf.c:180-182 | The edge key sets only the edge action. |
| PresetSave.StoreColorSrc | src/loadconf.c:132-134 | The colour source key sets only the colour source. |
| PresetSave.StoreChannels | src/loadconf.c:148-163 | Each channel key sets its own channel and selects the channel source, changing nothing else. |
| PresetSave.StoreWarpQuality | src/loadconf.c:176-179 | The warp quality key sets the quality and selects the warp source. |
| PresetSave.StyleRestored | src/saveconf.c:61-64 | The mapping, basis, reverse and function lines restore exactly those four fields. |
| PresetSave.PhaseRestored | src/saveconf.c:65-68 | A phase in use is restored and clears ign_phase. An ignored phase writes nothing. |
| PresetSave.ModeRestored | src/saveconf.c:69-70 | The multifractal and edge lines restore both modes. |
| PresetSave.LevelsRestored | src/saveconf.c:72-74 | Pinch, bias and gain are restored. |
| PresetSave.ChannelsRestored | src/saveconf.c:90-93 | The four channel lines restore the channels and select the channel source. |
| PresetSave.WarpRestored | src/saveconf.c:96-99 | The warp lines restore the warp parameters and select the warp source. |
| PresetSave.SourceRestored | src/saveconf.c:76-101 | The colour source is restored together with the parameters of that source only. The parameters of the other sources keep their previous values. |
| PresetRoundTrip.EntriesRestored | src/saveconf.c:50-101 | Applying every written entry to the defaults gives the saved state as the file can hold it. Unwritten fields keep their defaults. |
| PresetRoundTrip.StylePrintable | src/saveconf.c:61-64 | The names written for the style are values the reader takes whole. |
| PresetRoundTrip.ModePrintable | src/saveconf.c:69-70 | So are the multifractal and edge names. |
| PresetRoundTrip.SourcePrintable | src/saveconf.c:76-101 | So are the colour-source lines. |
| PresetRoundTrip.NumbersPrintable | src/saveconf.c:52-74 | So are the printed numbers. |
| PresetRoundTrip.EntriesPrintable | src/saveconf.c:50-101 | Every written value is trimmed, at most 900 bytes once encoded, and free of separators. |
| PresetRoundTrip.LineClean | src/saveconf.c:52-99 | A written line holds no ',' and no line feed, and its UTF-8 bytes and line feed fit the reader's 1024-byte buffer. |
| PresetRoundTrip.FramedValue | src/saveconf.c:48 | Framing a value between ASCII text adds exactly that text's length in bytes and no separator. |
| PresetRoundTrip.EntryLinesClean | src/saveconf.c:50-101 | Every entry line is clean. |
| PresetRoundTrip.HeaderClean | src/saveconf.c:48 | The header is clean and starts with '#'. |
| PresetRoundTrip.FramedClean | src/saveconf.c:48-103 | Header, comment, blank lines and entries together are clean. |
| PresetRoundTrip.SavedLinesClean | src/saveconf.c:48-103 | Every line of the saved file is clean. |
| PresetRoundTrip.EndedNothing | src/loadconf.c:235 | A line with no terminator added is the line itself. |
| PresetRoundTrip.Skipped | src/loadconf.c:206-207 | Lines that all split to nothing leave the state unchanged. |
| PresetRoundTrip.CommentsSkipped | src/saveconf.c:48-49 | The header, the comment and the blank line after them are ignored by the reader. |
| PresetRoundTrip.BlankSkipped | src/saveconf.c:103 | The final blank line is ignored. |
| PresetRoundTrip.FramedRead | src/loadconf.c:199-219 | Reading the framed file is reading its entry lines. |
| PresetRoundTrip.EntryLinesRead | src/loadconf.c:199-219 | Reading the entry lines into the defaults gives the restored state. |
| PresetRoundTrip.SavedLinesRead | src/loadconf.c:242-245 | Reading the saved lines gives the restored state, whether or not each keeps its line feed. |
| PresetRoundTrip.SplitWritten | src/loadconf.c:235 | Splitting the saved text at ',' and line feed gives the saved lines back, followed by one empty tail. |
| PresetRoundTrip.EmptyPieceSkipped | src/loadconf.c:242-245 | The empty tail token changes nothing. |
| PresetRoundTrip.ParseConfigRoundTrip | src/loadconf.c:228-251 | ParseConfig on the text SaveConfig writes gives back the saved state as the file holds it, with the links recomputed. |
| PresetRoundTrip.FgetsWritten | src/loadconf.c:271-274 | fgets reads the saved file back line by line. |
| PresetRoundTrip.LoadConfigRoundTrip | src/loadconf.c:253-284 | LoadConfig on the saved file gives back the same state as ParseConfig. |
| PresetRoundTrip.SaveRestored | src/saveconf.c:34-110 | Saving the state as a preset file holds it writes the same text as saving the original state. |
| PresetRoundTrip.SaveLoadSave | src/saveconf.c:34-110 | Save, load and save again reproduces the first file byte for byte. |
| PresetSave.SaveConfig | src/saveconf.c:47-103 | A savable state is written as the header and "# Preset file" comment followed by a blank line, and the file ends with a blank line. |
| PresetSave.FramedText | src/saveconf.c:47-103 | Header, comment, blank line, entries and final line feed joined by line feeds start with the frame and end with two line feeds. |
| PresetSave.Restored | src/saveconf.c:50-101 | The state a saved file holds keeps well-formedness and savability, the seed of a fixed-seed state, the scales, levels and colour source, and the default dialog flags. |
| Hex.Digit | trunk/noise-plugin/src/main.c:188-192 | A nibble's digit is one of 0-9 or A-F. |
| Hex.DigitValue | trunk/noise-plugin/src/main.c:188 | Reading a digit is the inverse of writing one. Any other character reads as -1. |
| Hex.DigitValueOfDigit | trunk/noise-plugin/src/main.c:188-192 | Every nibble reads back from its digit. |
| Hex.HexText | trunk/noise-plugin/src/main.c:190-193 | Two characters are written per byte. |
| Hex.HexTextAt | trunk/noise-plugin/src/main.c:191-192 | Position 2i holds the high nibble of byte i, and position 2i+1 the low nibble. |
| Hex.ParseHexText | trunk/noise-plugin/src/main.c:185-196 | The text reads back as the digest it came from. |
| Hex.HexTextInjective | trunk/noise-plugin/src/main.c:185-196 | Distinct digests never share a text. |
| Hex.MD5Text | trunk/noise-plugin/src/main.c:185-196 | With a buffer of n characters, the routine completes exactly when n ≥ 33, and then the buffer holds the 32 digits followed by a NUL. |
| Hex.GetMD5TextAsWritten | trunk/noise-plugin/src/main.c:186-194 | With the declared txt[32], the store of the terminator writes out of bounds for every digest. |
| Hex.GetMD5Text | trunk/noise-plugin/src/main.c:185-196 | With room for the terminator, the result is the digest's hex text plus NUL, and it reads back as the digest. |
| PresetName.MakeFull | src/interface.c:208-219 | The result always ends in ".fnp". A name that already had the extension is unchanged. Otherwise the extension is appended once. |
| PresetName.RemoveExtension | src/interface.c:221-227 | A trailing ".fnp" is dropped. A name without it is unchanged. |
| PresetName.MakeFullIdempotent | src/interface.c:208-219 | Completing a name twice is completing it once. |
| PresetName.RemoveMakeFull | src/interface.c:208-227 | A name typed without the extension comes back after completion and removal. |
| PresetName.RemoveAfterMakeFull | src/interface.c:208-227 | Removal after completion equals removal alone. |
| PresetName.MakeFullAfterRemove | src/interface.c:208-227 | A full name whose stem does not itself end in ".fnp" is rebuilt exactly. |
| Text.Spaces | src/saveconf.c:52 | A run of n spaces, the padding after a keyword. |
| Text.Chug | src/loadconf.c:204 | g_strchug drops exactly the leading whitespace. The result is a suffix and starts with a non-space. |
| Text.Chomp | src/loadconf.c:209 | g_strchomp drops exactly the trailing whitespace. The result is a prefix and ends with a non-space. |
| Text.StripTrimmed | src/loadconf.c:213-214 | A trimmed value is unchanged by chug, chomp and strip. |
| Text.ChugPadded | src/loadconf.c:213-214 | Chug removes exactly the space padding in front of a value. |
| Text.StripPadded | src/loadconf.c:213-214 | Strip gives a padded trimmed value back. |
| Text.ChugFrom | src/loadconf.c:204 | Chug adds no character. |
| Text.ChompFrom | src/loadconf.c:209 | Chomp adds no character. |
| Text.ByteLength | src/loadconf.c:271 | The bytes of a text, the unit fgets counts, number between one and four per character. |
| Text.ByteLengthAppend | src/loadconf.c:271 | The bytes of a joined text are the bytes of its parts. |
| Text.ByteLengthIsLength | src/loadconf.c:271 | Bytes and characters agree exactly when every character is ASCII. |
| Text.ChugKeeps | src/loadconf.c:204 | Chug keeps every non-space character. |
| Text.ChompKeeps | src/loadconf.c:209 | Chomp keeps every non-space character. |
| Text.LowerChar | src/loadconf.c:42 | The C locale lowers exactly the letters A-Z, by 32. |
| Text.Lower | src/loadconf.c:42 | Lowering a string lowers each character. |
| Text.EqualsIgnoreCaseIsLowerEquality | src/loadconf.c:42 | strcasecmp(a, b) == 0 exactly when the lowered strings are equal. |
| Text.EqualsIgnoreCaseLower | src/loadconf.c:42 | Between lower-case strings the comparison is plain equality. |
| Text.SplitAtFirst | src/loadconf.c:211 | Splitting at the first separator gives a separator-free head and a tail. The tail is absent exactly when there is no separator, and head, separator and tail rebuild the line. |
| Text.SplitAll | src/loadconf.c:235 | There is one token more than there are delimiters, and no token holds a delimiter. |
| Text.SplitAfterToken | src/loadconf.c:235 | A delimiter-free token followed by a delimiter is split off as one token. |
| Text.SplitJoinLines | src/loadconf.c:235 | Splitting lines joined by line feeds gives the lines back plus an empty tail. |

## Left out

- The GTK dialog, previews and GIMP procedure registration: user interface, with no computation of its own.
- Opening, reading and closing files, and the `-1` return when `fopen` fails: `LoadConfig` takes the text of the file and `SaveConfig` returns the text it writes.
- Switching `LC_NUMERIC` to "C" and back: the model's number conversions are the C locale's by construction.
- `pow`, `log`, `cos` and `sqrt`: parameters, so nothing about their rounding is modelled.
- Floating-point arithmetic in general: the model computes over exact reals. The round-trip theorems assume, through `Exact` and `Faithful`, that atof reads back every number `%f` printed for the state.
- The 32-bit `float` storage of the state's fields: the fields are reals.
- MD5 and the upper-casing of gradient names before hashing: a parameter of type string → digest.
- `GetGradientName` (the search through GIMP's gradient list): a parameter of the printer.
- `RANDOM`, `KERNEL`, `Poisson_count` and the calibration constants `MID` and `FAC`: their headers are not part of this model, so they are parameters.
- Sparse.DrawCell: the points of a cell are an unbounded sequence. The C caches are fixed arrays `p[D][MAX_FEATURES]` (trunk/noise-plugin/src/snoise.h:25,36,47; trunk/noise-plugin/src/cell.h:27-28,39-40,51-52), and `MAX_FEATURES` is not part of this model. The model assumes every `Poisson_count[i]` is at most `MAX_FEATURES`. A larger count would write past the cache in C.
- Cellular.CellFeatures: the feature list of a cell is unbounded, under the same assumption that `Poisson_count[i]` ≤ `MAX_FEATURES`.
- The numeric values of GIMP's edge-mode enumeration: taken as none = 0, wrap = 1, smear = 2, black = 3, background = 4.
- Preset values longer than 900 bytes once UTF-8 encoded: `PresetSave.Printable` caps a value's `Text.ByteLength` at 900, so every saved line stays under 1022 bytes (`PresetRoundTrip.Clean`). Longer lines would be split by fgets into pieces.
- Preset.PieceLength: counts characters, while fgets counts bytes. The two agree on ASCII text (`Text.ByteLengthIsLength`). On a line over 1022 UTF-8 bytes that holds non-ASCII characters, C splits earlier than the model, and may split inside a character, which a sequence of characters cannot express. Preset.LoadConfig inherits this on such lines.
- PresetRoundTrip.LoadConfigRoundTrip: proved for states whose printed values, the gradient name among them, take at most 900 UTF-8 bytes. Every saved line is then under 1022 bytes, where counting characters and counting bytes give the same pieces. A gradient name between 900 and about 1000 bytes would also round-trip in C but is outside the theorem.
- PresetRoundTrip.SaveLoadSave: proved under the same 900-byte bound on printed values as PresetRoundTrip.LoadConfigRoundTrip.
- Gradient names containing ',' or a line feed: `ParseConfig` would split them, so the round trip requires printable names.
- The `CALIBRATE` build, which measures `MID` and `FAC` with a separate `main`.
- The per-pixel plumbing of blending, warping and rendering tiles into GIMP drawables.
- RandomEngine.ShuffleTable: proves that the forward table is a permutation, not that the backward table stays its inverse. It does not always stay the inverse: when a swap's partners coincide, the backward table goes stale. The rendered output never reads the backward table.
- Tone.PinchFromTmp: requires 2·tmp + 1 ≠ 0. The level that violates it comes from pinch = −500/1497, which lies inside the clamp range [−1, 1] (Tone.PinchSingularSetting). No `float` equals that ratio exactly, so the source never meets it, and C would divide by zero there.
- Preset.EdgeValue: reads with the edge name table aligned with GIMP's numbering, not the table as written, in which "warp" loads as 0. The as-written reader is Preset.EdgeValueAsWritten.
- PresetSave.EdgeName: writes with the aligned table, not the table as written, in which background picks the NULL that ends the table. The as-written saver is PresetSave.EdgeNameAsWritten.
- Preset.ApplyWellFormed: its WellFormed result is stated for the corrected edge table. As written, an edge line naming "warp" loads mode 0, outside WellFormed's 1..4. It also holds only for values atof reads as numbers: a "nan" value is stored unclamped (see Preset.GetFloat).
- Preset.SetValueWellFormed: its WellFormed result is stated for the corrected edge table. As written, an edge line naming "warp" loads mode 0, outside WellFormed's 1..4. It also holds only for values atof reads as numbers: a "nan" value is stored unclamped (see Preset.GetFloat).
- Preset.ParseIncrementalWellFormed: its WellFormed result is stated for the corrected edge table. As written, an edge line naming "warp" loads mode 0, outside WellFormed's 1..4. It is also stated for the model's reader, which skips a line without ':'. As written, a bare "seed" line passes NULL to atoi. It also holds only for values atof reads as numbers: a "nan" value is stored unclamped (see Preset.GetFloat).
- Preset.ParseLinesWellFormed: its WellFormed result is stated for the corrected edge table. As written, an edge line naming "warp" loads mode 0, outside WellFormed's 1..4. It is also stated for the model's reader, which skips a line without ':'. As written, a bare "seed" line passes NULL to atoi. It also holds only for values atof reads as numbers: a "nan" value is stored unclamped (see Preset.GetFloat).
- Preset.ReadPieces: its WellFormed result is stated for the corrected edge table. As written, an edge line naming "warp" loads mode 0, outside WellFormed's 1..4. It is also stated for the model's reader, which skips a line without ':'. As written, a bare "seed" line passes NULL to atoi. It also holds only for values atof reads as numbers: a "nan" value is stored unclamped (see Preset.GetFloat).
- Preset.ParseConfig: its WellFormed result is stated for the corrected edge table. As written, an edge line naming "warp" loads mode 0, outside WellFormed's 1..4. It is also stated for the model's reader, which skips a line without ':'. As written, a bare "seed" line passes NULL to atoi. It also holds only for values atof reads as numbers: a "nan" value is stored unclamped (see Preset.GetFloat).
- Preset.LoadConfig: its WellFormed result is stated for the corrected edge table. As written, an edge line naming "warp" loads mode 0, outside WellFormed's 1..4. It is also stated for the model's reader, which skips a line without ':'. As written, a bare "seed" line passes NULL to atoi. It also holds only for values atof reads as numbers: a "nan" value is stored unclamped (see Preset.GetFloat).
- PresetSave.WellFormedSavable: stated for the corrected edge table. As written, background saves the NULL that ends the table and wrap comes back as smear. Modes 0..3 do round-trip as written (PresetSave.EdgeRoundTripAsWritten).
- PresetSave.ModeRestored: stated for the corrected edge table. As written, background saves the NULL that ends the table and wrap comes back as smear. Modes 0..3 do round-trip as written (PresetSave.EdgeRoundTripAsWritten).
- PresetRoundTrip.EntriesRestored: stated for the corrected edge table. As written, background saves the NULL that ends the table and wrap comes back as smear. Modes 0..3 do round-trip as written (PresetSave.EdgeRoundTripAsWritten).
- PresetRoundTrip.EntryLinesRead: stated for the corrected edge table. As written, background saves the NULL that ends the table and wrap comes back as smear. Modes 0..3 do round-trip as written (PresetSave.EdgeRoundTripAsWritten).
- PresetRoundTrip.SavedLinesRead: stated for the corrected edge table. As written, background saves the NULL that ends the table and wrap comes back as smear. Modes 0..3 do round-trip as written (PresetSave.EdgeRoundTripAsWritten).
- PresetRoundTrip.ParseConfigRoundTrip: stated for the corrected edge table. As written, background saves the NULL that ends the table and wrap comes back as smear. Modes 0..3 do round-trip as written (PresetSave.EdgeRoundTripAsWritten).
- PresetRoundTrip.LoadConfigRoundTrip: stated for the corrected edge table. As written, background saves the NULL that ends the table and wrap comes back as smear. Modes 0..3 do round-trip as written (PresetSave.EdgeRoundTripAsWritten).
- PresetRoundTrip.SaveLoadSave: stated for the corrected edge table. As written, background saves the NULL that ends the table and wrap comes back as smear. Modes 0..3 do round-trip as written (PresetSave.EdgeRoundTripAsWritten).
- Preset.ParseIncremental: the model's reader skips a line without ':'. As written, the code passes a NULL value to SetValue for such a line (Preset.ParseIncrementalAsWritten, Preset.SetValueAsWritten). On lines with ':' the two agree.
- Fractal.Routine: the basis sample is a function-typed parameter, not tied to the lattice, sparse and cellular definitions the routines of src/basis.c:309-606 instantiate.
- Fractal.MappingDim: the radial mapping leaves the dimension at 0, so no routine is chosen for it. No preset can select it, because the mapping name table has three entries.
- Lattice.FloorSplit: the integer part is an unbounded integer. C's `(int)floor(x)` is undefined once |x| ≥ 2^31. Settings reach that: octaves up to 15 and lacunarity up to 10 (src/loadconf.c:112-115) scale the last octave's coordinates by up to 10^14. Past 2^31 the C cell index is meaningless.
- Lattice.LatticeNoisePeriodic: holds for the unbounded cell index. In C it holds only while every coordinate and its shifted copy stay below 2^31 in magnitude.
- Sparse.IntAt: `int_at` is an unbounded integer. The `(gint32)` cast of src/snoise_3d.c:71-73 is undefined once |a| ≥ 2^31, which the octave scaling above reaches.
- Cellular.CellFraction: `ma ∈ [0, 1]` holds for the unbounded `int_at`. Once the `(gint32)` cast of tags/start/noise-plugin/src/cell_3d.c:101-103 overflows, C's `ma` is meaningless.
- Cellular.LowerBoundSound: the pruning bounds rest on `ma ∈ [0, 1]`, so in C they hold only below 2^31.
- Cellular.PruningIsExact: rests on the pruning bounds, so in C it holds only below 2^31.
- Preset.GetFloat: atof is a host function into the reals, so it always yields a number. C's atof returns NaN for "nan", which fails both comparisons of GET_FLOAT (src/loadconf.c:54) and is stored unclamped, e.g. a gain outside [−1, 1]. The WellFormed results of Preset.ApplyWellFormed, SetValueWellFormed, ParseIncrementalWellFormed, ParseLinesWellFormed, ReadPieces, ParseConfig and LoadConfig hold only for texts that atof reads as numbers.
- Fractal.FbmIsWeightedMean: requires the weights of the octaves run to total 1. SwitchBasis normalises all `whole + 1` weights, then drops the last octave when its fraction is in (0, 0.0001] (src/basis.c:804-807). There the run weights total 1 minus a positive dropped weight (Fractal.RunWeights, Fractal.DroppedWeightPositive).
- Fractal.FbmOutputRange: for a fraction in (0, 0.0001], the premise fails. Fractal.FbmOffset gives the plain output shifted by −MID·FAC times the dropped weight. Turbulent routines stay in range (Fractal.TurbulentOutputRange), but no range is proved for the plain ones there.
- trunk/noise-plugin/src/lnoise_3d.c: a copy of src/lnoise_3d.c, not modelled twice.

## Findings

| source | as written | input that shows it | evidently intended | confidence | as-written member | corrected member |
|---|---|---|---|---|---|---|
| src/render.c:299-302 | the fg−bg difference subtracts bg's blue from green and bg's green from blue | black foreground, pure green background: the last ramp entry has green 1, not the foreground's 0 | subtract channel by channel, so the ramp ends at the foreground | high, not executed | Tone.RampEndAsWritten | Tone.RampEnds |
| src/loadconf.c:211-216 | a non-comment line without ':' leaves tokens[1] NULL, which is stripped and passed to SetValue | the line "seed" (atoi(NULL)); the line "gradient" clears the gradient and selects the gradient source | ignore a line that has no value | high, not executed | Preset.BareSeedLine | Preset.ParseIncrementalGuarded |
| trunk/noise-plugin/src/main.c:185-196 | the terminator is stored to txt[32] of a 32-character buffer | any digest | a 33-character buffer | high, not executed | Hex.GetMD5TextAsWritten | Hex.GetMD5Text |
| trunk/noise-plugin/src/main.c:80 | edge_action_names is indexed by GIMP's edge mode, but the table starts at wrap while GIMP's modes start at none | edge mode wrap is saved as "smear"; background picks the NULL that ends the table; "warp" loads as none | the name table aligned with GIMP's numbering, so every mode saves and loads as itself | medium, not executed | PresetSave.EdgeNamesAsWritten | PresetSave.EdgeNameRoundTrip |
