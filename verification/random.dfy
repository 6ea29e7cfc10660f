/** The plugin's single source of determinism: a multiply-with-carry
    generator on 32-bit words, the 1024-entry shuffle table it seeds, and the
    chained table lookups `Hash1`..`Hash5` that every basis uses to turn
    lattice coordinates into pseudo-random values. */
module RandomEngine {
  import opened Common

  const RANDOM_FACTOR: int := 1791398085
  const TABLE_SIZE_LOG: nat := 10
  const TABLE_SIZE: nat := 1024

  /** A `guint32`. */
  type Word = x: int | 0 <= x < W32

  /** The four static words of the generator: state, carry, and the high and
      low 16-bit halves of the multiplier. */
  datatype RandState = RandState(x: Word, c: Word, ah: Word, al: Word)

  lemma TableSizeIsPowerOfTwo()
    ensures TABLE_SIZE == Pow2(TABLE_SIZE_LOG)
  {
    assert Pow2(TABLE_SIZE_LOG) == 1024;
  }

  function SetRandomSeed(seed: Word): (s: RandState)
    ensures s.x == 30903 && s.c == seed
    ensures s.ah * 65536 + s.al == RANDOM_FACTOR
    ensures 0 <= s.al < 65536 && 0 <= s.ah < 65536
  {
    RandState(30903, seed, RANDOM_FACTOR / 65536, RANDOM_FACTOR % 65536)
  }

  /** The high word `xh*ah + (xh*al >> 16) + (xl*ah >> 16)` computed before
      the carry test, wrapped to 32 bits. */
  function CarryEstimate(s: RandState): Word {
    var xh := s.x / 65536;
    var xl := s.x % 65536;
    (xh * s.ah + (xh * s.al) / 65536 + (xl * s.ah) / 65536) % W32
  }

  /** The unsigned test `xl*al >= ~c + 1`, both sides reduced to 32 bits. */
  predicate CarryOverflows(s: RandState) {
    var xl := s.x % 65536;
    (xl * s.al) % W32 >= (W32 - CarryEstimate(s)) % W32
  }

  /** One step of the generator; returns the new state and the value drawn. */
  function Random(s: RandState): (r: (RandState, Word))
    ensures r.1 == r.0.x
    ensures r.0.x == (s.x * RANDOM_FACTOR + s.c) % W32
    ensures r.0.ah == s.ah && r.0.al == s.al
    ensures CarryOverflows(s) ==> r.0.c == (CarryEstimate(s) + 1) % W32
    ensures !CarryOverflows(s) ==> r.0.c == CarryEstimate(s)
  {
    var est := CarryEstimate(s);
    var c' := if CarryOverflows(s) then (est + 1) % W32 else est;
    var x' := (s.x * RANDOM_FACTOR + s.c) % W32;
    (RandState(x', c', s.ah, s.al), x')
  }

  /** When the multiplier halves are those `SetRandomSeed` installs, the
      carry estimate is the high word of `x * RANDOM_FACTOR` up to the two
      low-order carries the 16-bit split drops. */
  lemma CarryEstimateApproximatesHighWord(s: RandState)
    requires s.ah * 65536 + s.al == RANDOM_FACTOR
    requires 0 <= s.al < 65536 && 0 <= s.ah < 65536
    ensures var hi := (s.x * RANDOM_FACTOR) / W32;
            CarryEstimate(s) <= hi <= CarryEstimate(s) + 2
  {
    var xh := s.x / 65536;
    var xl := s.x % 65536;
    assert s.x == xh * 65536 + xl;
    assert 0 <= xh < 65536;
    var A := (xh * s.al) / 65536;
    var a := (xh * s.al) % 65536;
    var B := (xl * s.ah) / 65536;
    var b := (xl * s.ah) % 65536;
    assert xh * s.al == A * 65536 + a;
    assert xl * s.ah == B * 65536 + b;
    assert 0 <= xh * s.ah <= 65535 * 65535 by {
      MulBound(xh, s.ah, 65535);
    }
    assert 0 <= A <= 65535 && 0 <= B <= 65535 by {
      MulBound(xh, s.al, 65535);
      MulBound(xl, s.ah, 65535);
    }
    var est := xh * s.ah + A + B;
    assert est < W32;
    assert CarryEstimate(s) == est;
    var low := (a + b) * 65536 + xl * s.al;
    assert 0 <= xl * s.al <= 65535 * 65535 by {
      MulBound(xl, s.al, 65535);
    }
    assert 0 <= low < 3 * W32;
    calc {
      s.x * RANDOM_FACTOR;
      (xh * 65536 + xl) * (s.ah * 65536 + s.al);
      { Expand(xh, xl, s.ah, s.al); }
      xh * s.ah * W32 + (xh * s.al + xl * s.ah) * 65536 + xl * s.al;
      est * W32 + low;
    }
    DivBetween(s.x * RANDOM_FACTOR, est, low);
  }

  lemma MulBound(p: int, q: int, m: int)
    requires 0 <= p <= m && 0 <= q <= m
    ensures 0 <= p * q <= m * m
  {
    assert p * q <= m * q <= m * m;
  }

  lemma Expand(xh: int, xl: int, ah: int, al: int)
    ensures (xh * 65536 + xl) * (ah * 65536 + al)
         == xh * ah * W32 + (xh * al + xl * ah) * 65536 + xl * al
  {
  }

  lemma DivBetween(n: int, q: int, low: int)
    requires n == q * W32 + low && 0 <= low < 3 * W32
    ensures q <= n / W32 <= q + 2
  {
  }

  /** `Random() >> (32 - TABLE_SIZE_LOG)`: the swap partner of each step. */
  function ShuffleIndex(w: Word): (j: nat)
    ensures j < TABLE_SIZE
    ensures j * 4194304 <= w < (j + 1) * 4194304
  {
    w / 4194304
  }

  /** `RandomDbl()`. */
  function RandomDbl(w: Word): (r: real)
    ensures 0.0 <= r < 1.0
  {
    w as real / 4294967296.0
  }

  function Iota(n: nat): (s: seq<int>)
    ensures |s| == n
    ensures forall k :: 0 <= k < n ==> s[k] == k
  {
    seq(n, k => k)
  }

  /** A table holding every index `0..TABLE_SIZE-1` exactly once. */
  ghost predicate IsPermutation(t: seq<int>) {
    |t| == TABLE_SIZE && multiset(t) == multiset(Iota(TABLE_SIZE))
  }

  /** A table of `guint16` entries of the right length: what every noise
      basis indexes with `Hash1`..`Hash5`. */
  predicate ValidTable(t: seq<int>) {
    |t| == TABLE_SIZE && forall k :: 0 <= k < |t| ==> 0 <= t[k] < 65536
  }

  lemma PermutationIsValidTable(t: seq<int>)
    requires IsPermutation(t)
    ensures ValidTable(t)
  {
    forall k | 0 <= k < |t|
      ensures 0 <= t[k] < 65536
    {
      PermutationInRange(t, k);
    }
  }

  lemma PermutationInRange(t: seq<int>, k: int)
    requires IsPermutation(t) && 0 <= k < |t|
    ensures 0 <= t[k] < TABLE_SIZE
  {
    assert t[k] in multiset(t);
    assert t[k] in multiset(Iota(TABLE_SIZE));
    assert t[k] in Iota(TABLE_SIZE);
  }

  lemma PermutationCoversAll(t: seq<int>, v: int)
    requires IsPermutation(t) && 0 <= v < TABLE_SIZE
    ensures exists k :: 0 <= k < |t| && t[k] == v
  {
    assert Iota(TABLE_SIZE)[v] == v;
    assert v in multiset(Iota(TABLE_SIZE));
    assert v in multiset(t);
    assert v in t;
  }

  /** The forward table before shuffling: each index points to its successor. */
  function InitialForward(): (t: seq<int>)
    ensures |t| == TABLE_SIZE
  {
    seq(TABLE_SIZE, i => (i + 1) % TABLE_SIZE)
  }

  /** The backward table before shuffling: each index points to its predecessor. */
  function InitialBackward(): (t: seq<int>)
    ensures |t| == TABLE_SIZE
  {
    seq(TABLE_SIZE, i => (i + TABLE_SIZE - 1) % TABLE_SIZE)
  }

  lemma InitialTablesAreInverse()
    ensures forall i :: 0 <= i < TABLE_SIZE ==>
      InitialBackward()[InitialForward()[i]] == i && InitialForward()[InitialBackward()[i]] == i
  {
  }

  lemma InitialTablesArePermutations()
    ensures IsPermutation(InitialForward())
    ensures IsPermutation(InitialBackward())
  {
    var id := Iota(TABLE_SIZE);
    assert id == [id[0]] + id[1..];
    assert InitialForward() == id[1..] + [id[0]];
    assert multiset(InitialForward()) == multiset(id[1..]) + multiset([id[0]]);
    assert id == id[..TABLE_SIZE - 1] + [id[TABLE_SIZE - 1]];
    assert InitialBackward() == [id[TABLE_SIZE - 1]] + id[..TABLE_SIZE - 1];
    assert multiset(InitialBackward()) == multiset([id[TABLE_SIZE - 1]]) + multiset(id[..TABLE_SIZE - 1]);
  }

  lemma SwapPreservesMultiset(s: seq<int>, p: int, q: int)
    requires 0 <= p < |s| && 0 <= q < |s|
    ensures multiset(s[p := s[q]][q := s[p]]) == multiset(s)
  {
  }

  /** The three sequential assignments `t = s[a]; s[a] = s[b]; s[b] = s[c];
      s[c] = t` that each shuffle step applies to both tables. */
  function Rotate(s: seq<int>, a: int, b: int, c: int): (r: seq<int>)
    requires 0 <= a < |s| && 0 <= b < |s| && 0 <= c < |s|
    ensures |r| == |s|
    ensures multiset(r) == multiset(s)
  {
    var s1 := s[a := s[b]];
    var s2 := s1[b := s1[c]];
    RotateIsTwoSwaps(s, a, b, c);
    s2[c := s[a]]
  }

  /** Whatever positions alias, the rotation is a swap of `a,b` followed by
      a swap of `b,c`, so it only permutes the values it moves. */
  lemma RotateIsTwoSwaps(s: seq<int>, a: int, b: int, c: int)
    requires 0 <= a < |s| && 0 <= b < |s| && 0 <= c < |s|
    ensures var s1 := s[a := s[b]];
            var s2 := s1[b := s1[c]];
            var u := s[a := s[b]][b := s[a]];
            s2[c := s[a]] == u[b := u[c]][c := u[b]]
            && multiset(s2[c := s[a]]) == multiset(s)
  {
    var u := s[a := s[b]][b := s[a]];
    SwapPreservesMultiset(s, a, b);
    SwapPreservesMultiset(u, b, c);
  }

  /** One step of `InitShuffleTable`: swap partner `j`, predecessor `bj` of
      `j`, and the four-way swap applied to the forward and backward tables. */
  function SwapStep(fwd: seq<int>, back: seq<int>, i: int, j: int): (r: (seq<int>, seq<int>))
    requires IsPermutation(fwd) && IsPermutation(back)
    requires 0 <= i < TABLE_SIZE && 0 <= j < TABLE_SIZE
    ensures IsPermutation(r.0) && IsPermutation(r.1)
  {
    PermutationInRange(back, j);
    PermutationInRange(fwd, i);
    PermutationInRange(fwd, j);
    var bj := back[j];
    var fi := fwd[i];
    var fj := fwd[j];
    (Rotate(fwd, i, bj, j), Rotate(back, fi, fj, j))
  }

  /** Steps `i..TABLE_SIZE-1` of the shuffle, drawing one index per step. */
  function ShuffleFrom(st: RandState, fwd: seq<int>, back: seq<int>, i: nat): (t: seq<int>)
    requires IsPermutation(fwd) && IsPermutation(back)
    requires i <= TABLE_SIZE
    ensures IsPermutation(t)
    decreases TABLE_SIZE - i
  {
    if i == TABLE_SIZE then fwd
    else
      var (st', w) := Random(st);
      var tables := SwapStep(fwd, back, i, ShuffleIndex(w));
      ShuffleFrom(st', tables.0, tables.1, i + 1)
  }

  lemma ShuffleFromStep(st: RandState, fwd: seq<int>, back: seq<int>, i: nat)
    requires IsPermutation(fwd) && IsPermutation(back) && i < TABLE_SIZE
    ensures var next := Random(st);
            var tables := SwapStep(fwd, back, i, ShuffleIndex(next.1));
            ShuffleFrom(st, fwd, back, i) == ShuffleFrom(next.0, tables.0, tables.1, i + 1)
  {
  }

  /** The table `InitShuffleTable(seed)` leaves in the global shuffle table:
      a pure function of the seed. */
  function ShuffleTable(seed: Word): (t: seq<int>)
    ensures IsPermutation(t)
  {
    InitialTablesArePermutations();
    ShuffleFrom(SetRandomSeed(seed), InitialForward(), InitialBackward(), 0)
  }

  /** The rotation carried out in place. */
  method RotateArray(s: array<int>, a: int, b: int, c: int)
    requires 0 <= a < s.Length && 0 <= b < s.Length && 0 <= c < s.Length
    modifies s
    ensures s[..] == Rotate(old(s[..]), a, b, c)
  {
    var t := s[a];
    s[a] := s[b];
    s[b] := s[c];
    s[c] := t;
  }

  /** The two tables in their unshuffled state. */
  method NewTables() returns (fwd: array<int>, back: array<int>)
    ensures fresh(fwd) && fresh(back) && fwd != back
    ensures fwd[..] == InitialForward() && back[..] == InitialBackward()
  {
    back := new int[TABLE_SIZE];
    fwd := new int[TABLE_SIZE];
    var i := 0;
    while i < TABLE_SIZE
      invariant 0 <= i <= TABLE_SIZE
      invariant forall k :: 0 <= k < i ==> fwd[k] == InitialForward()[k]
      invariant forall k :: 0 <= k < i ==> back[k] == InitialBackward()[k]
    {
      back[i] := (i + TABLE_SIZE - 1) % TABLE_SIZE;
      fwd[i] := (i + 1) % TABLE_SIZE;
      i := i + 1;
    }
  }

  /** One shuffle step carried out in place on both tables. */
  method ShuffleStep(fwd: array<int>, back: array<int>, i: int, j: int)
    requires fwd != back
    requires IsPermutation(fwd[..]) && IsPermutation(back[..])
    requires 0 <= i < TABLE_SIZE && 0 <= j < TABLE_SIZE
    modifies fwd, back
    ensures (fwd[..], back[..]) == SwapStep(old(fwd[..]), old(back[..]), i, j)
  {
    ghost var f0 := fwd[..];
    ghost var b0 := back[..];
    ghost var tables := SwapStep(f0, b0, i, j);
    PermutationInRange(b0, j);
    PermutationInRange(f0, i);
    PermutationInRange(f0, j);
    var bj := back[j];
    var fi := fwd[i];
    var fj := fwd[j];
    assert tables == (Rotate(f0, i, bj, j), Rotate(b0, fi, fj, j));
    RotateArray(fwd, i, bj, j);
    RotateArray(back, fi, fj, j);
  }

  /** `InitShuffleTable`, on arrays, as the source runs it. */
  method InitShuffleTable(seed: Word) returns (table: seq<int>)
    ensures table == ShuffleTable(seed)
    ensures IsPermutation(table)
    ensures ValidTable(table)
    ensures forall k :: 0 <= k < |table| ==> 0 <= table[k] < TABLE_SIZE
  {
    var st := SetRandomSeed(seed);
    var fwd, back := NewTables();
    InitialTablesArePermutations();
    var i := 0;
    while i < TABLE_SIZE
      invariant 0 <= i <= TABLE_SIZE
      invariant IsPermutation(fwd[..]) && IsPermutation(back[..])
      invariant ShuffleFrom(st, fwd[..], back[..], i) == ShuffleTable(seed)
    {
      var next := Random(st);
      var j := ShuffleIndex(next.1);
      ShuffleFromStep(st, fwd[..], back[..], i);
      ShuffleStep(fwd, back, i, j);
      st := next.0;
      i := i + 1;
    }
    table := fwd[..];
    forall k | 0 <= k < |table|
      ensures 0 <= table[k] < TABLE_SIZE
    {
      PermutationInRange(table, k);
    }
  }

  /** `Hash1(A)`: the table entry at `A & (TABLE_SIZE-1)`. */
  function Hash1(t: seq<int>, a: int): (r: int)
    requires |t| == TABLE_SIZE
    ensures r in t
  {
    t[a % TABLE_SIZE]
  }

  function Hash2(t: seq<int>, a: int, b: int): (r: int)
    requires |t| == TABLE_SIZE
    ensures r in t
  {
    t[(a + Hash1(t, b)) % TABLE_SIZE]
  }

  function Hash3(t: seq<int>, a: int, b: int, c: int): (r: int)
    requires |t| == TABLE_SIZE
    ensures r in t
  {
    t[(a + Hash2(t, b, c)) % TABLE_SIZE]
  }

  function Hash4(t: seq<int>, a: int, b: int, c: int, d: int): (r: int)
    requires |t| == TABLE_SIZE
    ensures r in t
  {
    t[(a + Hash3(t, b, c, d)) % TABLE_SIZE]
  }

  function Hash5(t: seq<int>, a: int, b: int, c: int, d: int, e: int): (r: int)
    requires |t| == TABLE_SIZE
    ensures r in t
  {
    t[(a + Hash4(t, b, c, d, e)) % TABLE_SIZE]
  }

  /** Over a permutation table every `HashN` is an index below
      `TABLE_SIZE`, so one hash can feed the next. */
  lemma HashesAreIndices(t: seq<int>, a: int, b: int, c: int, d: int, e: int)
    requires IsPermutation(t)
    ensures 0 <= Hash1(t, a) < TABLE_SIZE
    ensures 0 <= Hash2(t, a, b) < TABLE_SIZE
    ensures 0 <= Hash3(t, a, b, c) < TABLE_SIZE
    ensures 0 <= Hash4(t, a, b, c, d) < TABLE_SIZE
    ensures 0 <= Hash5(t, a, b, c, d, e) < TABLE_SIZE
  {
    HashEntryIsIndex(t, Hash1(t, a));
    HashEntryIsIndex(t, Hash2(t, a, b));
    HashEntryIsIndex(t, Hash3(t, a, b, c));
    HashEntryIsIndex(t, Hash4(t, a, b, c, d));
    HashEntryIsIndex(t, Hash5(t, a, b, c, d, e));
  }

  /** A value found in a permutation table is an index. */
  lemma HashEntryIsIndex(t: seq<int>, v: int)
    requires IsPermutation(t) && v in t
    ensures 0 <= v < TABLE_SIZE
  {
    var i :| 0 <= i < |t| && t[i] == v;
    PermutationInRange(t, i);
  }

  /** The same chain for any number of arguments: the last argument is looked
      up alone, each earlier one is added to the hash of the rest. */
  function HashChain(t: seq<int>, args: seq<int>): (r: int)
    requires |t| == TABLE_SIZE && |args| >= 1
    ensures r in t
    decreases |args|
  {
    if |args| == 1 then t[args[0] % TABLE_SIZE]
    else t[(args[0] + HashChain(t, args[1..])) % TABLE_SIZE]
  }

  /** Over a permutation table every hash is a table index. */
  lemma HashChainInRange(t: seq<int>, args: seq<int>)
    requires IsPermutation(t) && |args| >= 1
    ensures 0 <= HashChain(t, args) < TABLE_SIZE
  {
    if |args| == 1 {
      PermutationInRange(t, args[0] % TABLE_SIZE);
    } else {
      PermutationInRange(t, (args[0] + HashChain(t, args[1..])) % TABLE_SIZE);
    }
  }

  lemma Hash2IsChain(t: seq<int>, a: int, b: int)
    requires |t| == TABLE_SIZE
    ensures Hash2(t, a, b) == HashChain(t, [a, b])
  {
    assert [a, b][1..] == [b];
  }

  lemma Hash3IsChain(t: seq<int>, a: int, b: int, c: int)
    requires |t| == TABLE_SIZE
    ensures Hash3(t, a, b, c) == HashChain(t, [a, b, c])
  {
    Hash2IsChain(t, b, c);
    assert [a, b, c][1..] == [b, c];
  }

  lemma Hash4IsChain(t: seq<int>, a: int, b: int, c: int, d: int)
    requires |t| == TABLE_SIZE
    ensures Hash4(t, a, b, c, d) == HashChain(t, [a, b, c, d])
  {
    Hash3IsChain(t, b, c, d);
    assert [a, b, c, d][1..] == [b, c, d];
  }

  lemma Hash5IsChain(t: seq<int>, a: int, b: int, c: int, d: int, e: int)
    requires |t| == TABLE_SIZE
    ensures Hash5(t, a, b, c, d, e) == HashChain(t, [a, b, c, d, e])
  {
    Hash4IsChain(t, b, c, d, e);
    assert [a, b, c, d, e][1..] == [b, c, d, e];
  }

  /** The five macros are the chain at arities one to five. */
  lemma HashMacrosAreChains(t: seq<int>, a: int, b: int, c: int, d: int, e: int)
    requires |t| == TABLE_SIZE
    ensures Hash1(t, a) == HashChain(t, [a])
    ensures Hash2(t, a, b) == HashChain(t, [a, b])
    ensures Hash3(t, a, b, c) == HashChain(t, [a, b, c])
    ensures Hash4(t, a, b, c, d) == HashChain(t, [a, b, c, d])
    ensures Hash5(t, a, b, c, d, e) == HashChain(t, [a, b, c, d, e])
  {
    Hash2IsChain(t, a, b);
    Hash3IsChain(t, a, b, c);
    Hash4IsChain(t, a, b, c, d);
    Hash5IsChain(t, a, b, c, d, e);
  }

  /** Each argument only matters through its low `TABLE_SIZE_LOG` bits. */
  lemma {:induction false} HashChainPeriodic(t: seq<int>, args: seq<int>, args': seq<int>)
    requires |t| == TABLE_SIZE && |args| >= 1 && |args'| == |args|
    requires forall k :: 0 <= k < |args| ==> args[k] % TABLE_SIZE == args'[k] % TABLE_SIZE
    ensures HashChain(t, args) == HashChain(t, args')
    decreases |args|
  {
    if |args| > 1 {
      HashChainPeriodic(t, args[1..], args'[1..]);
      var h := HashChain(t, args[1..]);
      assert args[0] % TABLE_SIZE == args'[0] % TABLE_SIZE;
      ModSum(args[0], args'[0], h);
    }
  }

  lemma ModSum(a: int, a': int, h: int)
    requires a % TABLE_SIZE == a' % TABLE_SIZE
    ensures (a + h) % TABLE_SIZE == (a' + h) % TABLE_SIZE
  {
    var q := a / TABLE_SIZE;
    var q' := a' / TABLE_SIZE;
    assert a == q * TABLE_SIZE + a % TABLE_SIZE;
    assert a' == q' * TABLE_SIZE + a % TABLE_SIZE;
    assert a + h == (a' + h) + (q - q') * TABLE_SIZE;
  }

  lemma Hash1DependsOnLowBits(t: seq<int>, a: int, a': int)
    requires |t| == TABLE_SIZE && a % TABLE_SIZE == a' % TABLE_SIZE
    ensures Hash1(t, a) == Hash1(t, a')
  {
  }
}
