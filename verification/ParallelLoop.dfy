/**
 Parallel loops over a linear range: the recursive decomposition of an iteration
 range, the cores that hold elements of a range, the incremental computation of the
 global index, and the localized forall, which visits every element exactly once, on
 its home core and with its index.
 */
module ParallelLoop {
  import opened Bits
  import opened Addressing

  // ---------- Loop decomposition ----------

  const LIMIT_48: int := 0x8000_0000_0000

  /** What a signed 48-bit field keeps of x. */
  function Pack48(x: int): int {
    var r := x % (2 * LIMIT_48);
    if r < LIMIT_48 then r else r - 2 * LIMIT_48
  }

  lemma Pack48Keeps(x: int)
    ensures Pack48(x) == x <==> -LIMIT_48 <= x < LIMIT_48
  {
  }

  datatype Range = Range(start: int, iters: int)

  /** A range is run serially: threshold 0 means that the flag decides. */
  predicate Serial(iters: int, threshold: nat, flag: nat) {
    (threshold == 0 && iters <= flag) || iters <= threshold
  }

  /** The calls of the loop body: the left part stays, the right part is packed and spawned. */
  function Leaves(start: int, iters: int, threshold: nat, flag: nat): seq<Range>
    requires 0 <= iters < LIMIT_48 && (threshold >= 1 || flag >= 1)
    decreases iters
  {
    if iters == 0 then []
    else if Serial(iters, threshold, flag) then [Range(start, iters)]
    else
      Pack48Keeps(iters / 2);
      Leaves(start, (iters + 1) / 2, threshold, flag) +
      Leaves(Pack48(start + (iters + 1) / 2), Pack48(iters / 2), threshold, flag)
  }

  /** The ranges are not empty and follow one another from lo to hi. */
  predicate Tile(ranges: seq<Range>, lo: int, hi: int)
    decreases |ranges|
  {
    if ranges == [] then lo == hi
    else ranges[0].start == lo && ranges[0].iters >= 1 && Tile(ranges[1..], lo + ranges[0].iters, hi)
  }

  lemma {:induction false} TileConcat(r1: seq<Range>, r2: seq<Range>, lo: int, mid: int, hi: int)
    requires Tile(r1, lo, mid) && Tile(r2, mid, hi)
    ensures Tile(r1 + r2, lo, hi)
    decreases |r1|
  {
    if r1 == [] {
      assert r1 + r2 == r2;
    } else {
      TileConcat(r1[1..], r2, lo + r1[0].iters, mid, hi);
      assert (r1 + r2)[1..] == r1[1..] + r2;
    }
  }

  predicate AllSerial(ranges: seq<Range>, threshold: nat, flag: nat) {
    forall i :: 0 <= i < |ranges| ==> Serial(ranges[i].iters, threshold, flag)
  }

  lemma SerialConcat(r1: seq<Range>, r2: seq<Range>, threshold: nat, flag: nat)
    requires AllSerial(r1, threshold, flag) && AllSerial(r2, threshold, flag)
    ensures AllSerial(r1 + r2, threshold, flag)
  {
  }

  lemma OneLeaf(start: int, iters: int, threshold: nat, flag: nat)
    requires 0 <= iters < LIMIT_48 && (threshold >= 1 || flag >= 1) && (iters == 0 || Serial(iters, threshold, flag))
    ensures Tile(Leaves(start, iters, threshold, flag), start, start + iters)
    ensures AllSerial(Leaves(start, iters, threshold, flag), threshold, flag)
  {
    hide Pack48;
  }

  lemma TwoLeaves(start: int, iters: int, threshold: nat, flag: nat)
    requires 0 < iters < LIMIT_48 && (threshold >= 1 || flag >= 1) && !Serial(iters, threshold, flag)
    requires 0 <= start && start + iters <= LIMIT_48
    ensures Leaves(start, iters, threshold, flag) ==
      Leaves(start, (iters + 1) / 2, threshold, flag) + Leaves(start + (iters + 1) / 2, iters / 2, threshold, flag)
  {
    Pack48Keeps(iters / 2);
    Pack48Keeps(start + (iters + 1) / 2);
    hide Pack48;
  }

  /** The largest range that is run serially. */
  function Limit(threshold: nat, flag: nat): nat {
    if threshold == 0 then flag else threshold
  }

  predicate AtLeast(ranges: seq<Range>, m: int) {
    forall i :: 0 <= i < |ranges| ==> ranges[i].iters >= m
  }

  lemma {:induction false} LeavesAtLeast(start: int, iters: int, threshold: nat, flag: nat, m: int)
    requires 0 <= iters < LIMIT_48 && (threshold >= 1 || flag >= 1) && 0 <= start && start + iters <= LIMIT_48
    requires m == (Limit(threshold, flag) + 1) / 2 && iters >= m
    ensures AtLeast(Leaves(start, iters, threshold, flag), m)
    decreases iters
  {
    hide Pack48;
    if iters > 0 && !Serial(iters, threshold, flag) {
      var mid := start + (iters + 1) / 2;
      LeavesAtLeast(start, (iters + 1) / 2, threshold, flag, m);
      LeavesAtLeast(mid, iters / 2, threshold, flag, m);
      TwoLeaves(start, iters, threshold, flag);
    }
  }

  /** Ranges are not split for nothing: a leaf is the whole range, or at least half as large as may be run serially. */
  lemma LeavesAreLarge(start: int, iters: int, threshold: nat, flag: nat)
    requires 0 <= iters < LIMIT_48 && (threshold >= 1 || flag >= 1) && 0 <= start && start + iters <= LIMIT_48
    ensures 1 <= iters <= Limit(threshold, flag) ==> Leaves(start, iters, threshold, flag) == [Range(start, iters)]
    ensures iters > Limit(threshold, flag) ==> AtLeast(Leaves(start, iters, threshold, flag), (Limit(threshold, flag) + 1) / 2)
  {
    if iters > Limit(threshold, flag) {
      LeavesAtLeast(start, iters, threshold, flag, (Limit(threshold, flag) + 1) / 2);
    }
  }

  /** As long as the range ends within 47 bits, the leaves tile it and each is short enough to be serial. */
  lemma {:induction false} LeavesTile(start: int, iters: int, threshold: nat, flag: nat)
    requires 0 <= iters < LIMIT_48 && (threshold >= 1 || flag >= 1)
    requires 0 <= start && start + iters <= LIMIT_48
    ensures Tile(Leaves(start, iters, threshold, flag), start, start + iters)
    ensures AllSerial(Leaves(start, iters, threshold, flag), threshold, flag)
    decreases iters
  {
    hide Pack48, AllSerial, Tile, Leaves;
    if iters == 0 || Serial(iters, threshold, flag) {
      OneLeaf(start, iters, threshold, flag);
    } else {
      var mid := start + (iters + 1) / 2;
      LeavesTile(start, (iters + 1) / 2, threshold, flag);
      LeavesTile(mid, iters / 2, threshold, flag);
      var left, right := Leaves(start, (iters + 1) / 2, threshold, flag), Leaves(mid, iters / 2, threshold, flag);
      TwoLeaves(start, iters, threshold, flag);
      TileConcat(left, right, start, mid, start + iters);
      SerialConcat(left, right, threshold, flag);
    }
  }

  // ---------- Cores with elements ----------

  function Min(a: int, b: int): int {
    if a < b then a else b
  }

  /** The number of blocks that n elements from base on reach into. */
  function Spanned(base: nat, n: nat, size: nat): int {
    (End(base, n, size) - 1) / BLOCK_SIZE - base / BLOCK_SIZE + 1
  }

  lemma BlockMaxAligned(g: nat, size: nat)
    requires ElemSize(size) && g % size == 0
    ensures BlockMax(g, size) - g == BLOCK_SIZE - g % BLOCK_SIZE
  {
    ElementInBlock(g, size);
  }

  method CoresWithElements(m: Machine, base: nat, nelem: nat, size: nat) returns (startCore: nat, fc: int)
    requires Wf(m) && ElemSize(size) && base % size == 0 && nelem > 0
    ensures startCore == CoreOf(m, base) && fc == Min(Spanned(base, nelem, size), m.cores)
  {
    startCore := CoreOf(m, base);
    var end := End(base, nelem, size);
    fc := 1;
    var blockElems := if 1 > BLOCK_SIZE / size then 1 else BLOCK_SIZE / size;
    var nfirstcore := (BlockMax(base, size) - base) / size;
    var n := nelem - nfirstcore;
    FirstBlock(base, nelem, size);
    if n > 0 {
      var nrest := n / blockElems;
      LaterBlocks(m, base, nelem, size, nfirstcore);
      if nrest >= m.cores - 1 {
        fc := m.cores;
      } else {
        fc := fc + nrest;
        if (end - BlockMin(end)) / size != 0 && CoreOf(m, end) != CoreOf(m, base) {
          fc := fc + 1;
        }
      }
    }
  }

  /** The elements that fit in the first block. */
  lemma FirstBlock(base: nat, nelem: nat, size: nat)
    requires ElemSize(size) && base % size == 0 && nelem > 0
    ensures BLOCK_SIZE / size >= 1
    ensures var k := (BlockMax(base, size) - base) / size;
      && k * size == BLOCK_SIZE - base % BLOCK_SIZE && k >= 1
      && (nelem <= k ==> Spanned(base, nelem, size) == 1)
  {
    WholeBlock(size);
    BlockMaxAligned(base, size);
    OffsetAligned(base, size);
    ElementInBlock(base, size);
    var r := base % BLOCK_SIZE;
    var k := (BLOCK_SIZE - r) / size;
    GapAligned(r, size);
    ExactDiv(BLOCK_SIZE - r, size);
    if nelem <= k {
      MulMonotone(nelem, k, size);
      MulMonotone(1, nelem, size);
    }
  }

  lemma GapAligned(r: nat, size: nat)
    requires ElemSize(size) && r % size == 0 && r < BLOCK_SIZE
    ensures (BLOCK_SIZE - r) % size == 0
  {
    WholeBlock(size);
    ExactDiv(r, size);
    var i, e := r / size, BLOCK_SIZE / size;
    assert BLOCK_SIZE - r == (e - i) * size;
    MultipleOf(e - i, size);
  }

  lemma LaterCore(m: Machine, base: nat, end: nat, q: nat)
    requires Wf(m) && end / BLOCK_SIZE == base / BLOCK_SIZE + 1 + q
    ensures q < m.cores - 1 ==> CoreOf(m, end) != CoreOf(m, base)
  {
    if q < m.cores - 1 {
      CoresApart(base / BLOCK_SIZE, q + 1, m.cores);
    }
  }

  lemma LaterDigits(base: nat, end: nat, q: nat, r: nat, size: nat)
    requires size >= 1 && end == (base / BLOCK_SIZE + 1 + q) * BLOCK_SIZE + r * size && 0 <= r * size < BLOCK_SIZE
    requires r * size == 0 <==> r == 0
    ensures end >= 1 && end / BLOCK_SIZE == base / BLOCK_SIZE + 1 + q && (end - BlockMin(end)) / size == r
    ensures (end - 1) / BLOCK_SIZE == base / BLOCK_SIZE + q + if r == 0 then 0 else 1
  {
    EndDigits(base, end, q, r * size);
    MultipleOf(r, size);
  }

  /** Beyond the first block: the whole blocks, and a last one that is partly filled. */
  lemma LaterBlocks(m: Machine, base: nat, nelem: nat, size: nat, k: nat)
    requires Wf(m) && ElemSize(size) && k * size == BLOCK_SIZE - base % BLOCK_SIZE && nelem > k
    ensures BLOCK_SIZE / size >= 1
    ensures var end, nrest := End(base, nelem, size), (nelem - k) / (BLOCK_SIZE / size);
      var partial := (end - BlockMin(end)) / size != 0;
      && nrest >= 0 && Spanned(base, nelem, size) == 1 + nrest + (if partial then 1 else 0)
      && (nrest < m.cores - 1 && partial ==> CoreOf(m, end) != CoreOf(m, base))
  {
    WholeBlock(size);
    var e := BLOCK_SIZE / size;
    var q, r := (nelem - k) / e, (nelem - k) % e;
    DivModRecompose(nelem - k, e);
    hide End, ElemSize, CoreOf;
    EndValue(base, nelem, size, k, e, q, r);
    var end := End(base, nelem, size);
    LaterDigits(base, end, q, r, size);
    LaterCore(m, base, end, q);
    hide BlockMin;
    assert Spanned(base, nelem, size) == 1 + q + if r == 0 then 0 else 1;
  }

  /** Where the range ends: q whole blocks after the first, and r elements. */
  lemma EndValue(base: nat, nelem: nat, size: nat, k: nat, e: nat, q: nat, r: nat)
    requires size >= 1 && e * size == BLOCK_SIZE && r < e && nelem == k + (q * e + r)
    requires k * size == BLOCK_SIZE - base % BLOCK_SIZE
    ensures End(base, nelem, size) == (base / BLOCK_SIZE + 1 + q) * BLOCK_SIZE + r * size
    ensures 0 <= r * size < BLOCK_SIZE && (r * size == 0 <==> r == 0)
  {
    Distribute(k, q * e, r, size);
    assert (q * e) * size == q * (e * size);
    MulMonotone(r + 1, e, size);
    MulNext(r, size);
    if r > 0 { MulMonotone(1, r, size); }
  }

  lemma Distribute(a: nat, b: nat, c: nat, size: nat)
    ensures (a + (b + c)) * size == a * size + b * size + c * size
  {
  }

  lemma EndDigits(base: nat, end: nat, q: nat, x: nat)
    requires end == (base / BLOCK_SIZE + 1 + q) * BLOCK_SIZE + x && x < BLOCK_SIZE && end >= 1
    ensures end / BLOCK_SIZE == base / BLOCK_SIZE + 1 + q && end % BLOCK_SIZE == x
    ensures (end - 1) / BLOCK_SIZE == base / BLOCK_SIZE + q + if x == 0 then 0 else 1
  {
  }

  /** Fewer than p blocks apart, two blocks are on different cores. */
  lemma CoresApart(b: nat, i: nat, p: nat)
    requires 1 <= i < p
    ensures (b + i) % p != b % p
  {
    var q, r := b / p, b % p;
    assert b == q * p + r;
    if r + i < p {
      DivMod(b + i, p, q, r + i);
    } else {
      assert b + i == (q + 1) * p + (r + i - p);
      DivMod(b + i, p, q + 1, r + i - p);
    }
  }

  /** The core that the i-th message of a localized loop goes to. */
  function NthCore(m: Machine, startCore: nat, i: nat): nat
    requires Wf(m)
  {
    (startCore + i) % m.cores
  }

  ghost predicate Visited(m: Machine, startCore: nat, fc: int, c: nat)
    requires Wf(m)
  {
    exists i: nat :: i < fc && c == NthCore(m, startCore, i)
  }

  lemma ModAdd(b: nat, i: nat, p: nat)
    requires p >= 1
    ensures (b + i) % p == (b % p + i) % p
  {
    var q := b / p;
    var x := b % p + i;
    DivModRecompose(x, p);
    assert b + i == (q + x / p) * p + x % p;
    DivMod(b + i, p, q + x / p, x % p);
  }

  lemma ModShort(b: nat, i: nat, p: nat)
    requires p >= 1
    ensures (b + i) % p == (b + i % p) % p
  {
    ModAdd(i, b, p);
  }

  /** A byte in the i-th spanned block is on the i-th core. */
  lemma BlockCore(m: Machine, base: nat, x: nat)
    requires Wf(m) && base <= x
    ensures var i := x / BLOCK_SIZE - base / BLOCK_SIZE;
      i >= 0 && CoreOf(m, x) == NthCore(m, CoreOf(m, base), i)
  {
    ModAdd(base / BLOCK_SIZE, x / BLOCK_SIZE - base / BLOCK_SIZE, m.cores);
  }

  lemma OwnerVisited(m: Machine, base: nat, nelem: nat, size: nat, x: nat)
    requires Wf(m) && base <= x < End(base, nelem, size)
    ensures Visited(m, CoreOf(m, base), Min(Spanned(base, nelem, size), m.cores), CoreOf(m, x))
  {
    var i := x / BLOCK_SIZE - base / BLOCK_SIZE;
    BlockCore(m, base, x);
    SpannedBound(base, nelem, size, x);
    hide CoreOf, Spanned;
    ModShort(CoreOf(m, base), i, m.cores);
    var j := if i < m.cores then i else i % m.cores;
    assert j < m.cores && j <= i && CoreOf(m, x) == NthCore(m, CoreOf(m, base), j) by {
      DivModRecompose(i, m.cores);
      MulAtMost(i, m.cores);
    }
  }

  lemma MulAtMost(i: nat, p: nat)
    requires p >= 1
    ensures i % p <= i && i % p < p
  {
  }

  lemma SpannedBound(base: nat, nelem: nat, size: nat, x: nat)
    requires base <= x < End(base, nelem, size)
    ensures x / BLOCK_SIZE - base / BLOCK_SIZE < Spanned(base, nelem, size)
  {
  }

  /** Where the i-th block from base on starts, which is before the end when the range spans it. */
  lemma BlockStart(base: nat, end: int, i: nat)
    requires 1 <= i <= (end - 1) / BLOCK_SIZE - base / BLOCK_SIZE && end >= 1
    ensures var x := (base / BLOCK_SIZE + i) * BLOCK_SIZE;
      base <= x < end && x % BLOCK_SIZE == 0 && x / BLOCK_SIZE == base / BLOCK_SIZE + i
  {
  }

  lemma BlockAfter(base: nat, end: int, size: nat, i: nat) returns (x: nat)
    requires size >= 1 && BLOCK_SIZE % size == 0 && base % size == 0 && end >= 1
    requires 1 <= i <= (end - 1) / BLOCK_SIZE - base / BLOCK_SIZE
    ensures base <= x < end && (x - base) % size == 0 && x / BLOCK_SIZE - base / BLOCK_SIZE == i
  {
    x := (base / BLOCK_SIZE + i) * BLOCK_SIZE;
    BlockStart(base, end, i);
    MultipleTrans(x, BLOCK_SIZE, size);
    DiffAligned(x, base, size);
  }

  /** An element of the range in the i-th block from base on. */
  lemma BlockElement(base: nat, nelem: nat, size: nat, i: nat) returns (x: nat)
    requires ElemSize(size) && base % size == 0 && nelem > 0 && i < Spanned(base, nelem, size)
    ensures base <= x < End(base, nelem, size) && (x - base) % size == 0 && x / BLOCK_SIZE - base / BLOCK_SIZE == i
  {
    MulMonotone(1, nelem, size);
    if i == 0 {
      x := base;
    } else {
      var end := End(base, nelem, size);
      assert end >= 1 && i <= (end - 1) / BLOCK_SIZE - base / BLOCK_SIZE;
      WholeBlock(size);
      assert BLOCK_SIZE % size == 0;
      x := BlockAfter(base, end, size, i);
    }
  }

  /** A visited core owns an element: the first one in its block of the range. */
  lemma VisitedOwns(m: Machine, base: nat, nelem: nat, size: nat, i: nat)
    requires Wf(m) && ElemSize(size) && base % size == 0 && nelem > 0
    requires i < Spanned(base, nelem, size)
    ensures exists x: nat :: base <= x < End(base, nelem, size) && (x - base) % size == 0
              && CoreOf(m, x) == NthCore(m, CoreOf(m, base), i)
  {
    hide CoreOf, Spanned, NthCore;
    var x := BlockElement(base, nelem, size, i);
    BlockCore(m, base, x);
  }

  lemma DiffAligned(x: int, y: int, size: nat)
    requires size >= 1 && x % size == 0 && y % size == 0
    ensures (x - y) % size == 0
  {
    ExactDiv(x, size);
    ExactDiv(y, size);
    MultipleOf(x / size - y / size, size);
    assert x - y == (x / size - y / size) * size;
  }

  /** The cores that a localized loop visits are exactly those that own elements of the range. */
  lemma VisitedIffOwner(m: Machine, base: nat, nelem: nat, size: nat, c: nat)
    requires Wf(m) && ElemSize(size) && base % size == 0 && nelem > 0
    ensures Visited(m, CoreOf(m, base), Min(Spanned(base, nelem, size), m.cores), c) <==>
      exists x: nat :: base <= x < End(base, nelem, size) && (x - base) % size == 0 && CoreOf(m, x) == c
  {
    hide CoreOf, End, Spanned;
    var fc := Min(Spanned(base, nelem, size), m.cores);
    if Visited(m, CoreOf(m, base), fc, c) {
      var i: nat :| i < fc && c == NthCore(m, CoreOf(m, base), i);
      VisitedOwns(m, base, nelem, size, i);
    }
    forall x: nat | base <= x < End(base, nelem, size) && CoreOf(m, x) == c
      ensures Visited(m, CoreOf(m, base), fc, c)
    {
      OwnerVisited(m, base, nelem, size, x);
    }
  }

  // ---------- Visits ----------

  /** The loop body is called on a core with an index and a reference to a local element. */
  datatype Visit = Visit(core: nat, index: int, element: int)

  /** The index of the element at local pointer t of core c: `make_linear(t) - base`. */
  function Index(m: Machine, base: nat, size: nat, c: nat, t: int): int
    requires size >= 1 && t >= m.chunkBase
  {
    (Linear(m, t, c) - base) / size
  }

  /** n visits of core c from local pointer first on, each with its index. */
  function LocalVisits(m: Machine, base: nat, size: nat, c: nat, first: int, n: nat): seq<Visit>
    requires size >= 1 && first >= m.chunkBase
  {
    if n == 0 then []
    else
      var t := first + (n - 1) * size;
      LocalVisits(m, base, size, c, first, n - 1) + [Visit(c, Index(m, base, size, c, t), t)]
  }

  /** Local pointer t of core c holds an element of the array that starts at base. */
  predicate OnElement(m: Machine, base: nat, size: nat, c: nat, t: int) {
    && Wf(m) && ElemSize(size) && base % size == 0 && c < m.cores
    && t >= m.chunkBase && (t - m.chunkBase) % size == 0
  }

  lemma NextOnElement(m: Machine, base: nat, size: nat, c: nat, t: int)
    requires OnElement(m, base, size, c, t)
    ensures OnElement(m, base, size, c, t + size)
  {
    AddMultiple(t - m.chunkBase, size, size);
  }

  lemma LinearAligned(m: Machine, base: nat, size: nat, c: nat, t: int)
    requires OnElement(m, base, size, c, t)
    ensures Linear(m, t, c) % size == 0
  {
    LinearDigits(m, t, c);
    OffsetAligned(Linear(m, t, c), size);
    OffsetAligned(t - m.chunkBase, size);
  }

  /** The bytes of other cores between the element at t and the next local one. */
  function Skipped(m: Machine, t: int, size: nat): int {
    if (t - m.chunkBase) % BLOCK_SIZE + size < BLOCK_SIZE then 0 else BLOCK_SIZE * (m.cores - 1)
  }

  lemma OffsetNext(m: Machine, base: nat, size: nat, c: nat, t: int)
    requires OnElement(m, base, size, c, t)
    ensures var r := (t - m.chunkBase) % BLOCK_SIZE;
      && r + size <= BLOCK_SIZE
      && (t + size - m.chunkBase) % BLOCK_SIZE == if r + size == BLOCK_SIZE then 0 else r + size
  {
    ElementInBlock(t - m.chunkBase, size);
  }

  /** The next local element is the next one globally, or is a whole round of blocks further. */
  lemma IndexNext(m: Machine, base: nat, size: nat, c: nat, t: int)
    requires OnElement(m, base, size, c, t)
    ensures Index(m, base, size, c, t + size) == Index(m, base, size, c, t) + 1 +
      if (t - m.chunkBase) % BLOCK_SIZE + size < BLOCK_SIZE then 0 else BLOCK_SIZE / size * (m.cores - 1)
  {
    hide Linear;
    var x := Linear(m, t, c) - base;
    OffsetNext(m, base, size, c, t);
    LinearAligned(m, base, size, c, t);
    DiffAligned(Linear(m, t, c), base, size);
    LinearNext(m, c, size, t);
    SkippedElements(m, t, size);
    hide Skipped, OnElement;
    var skip := if (t - m.chunkBase) % BLOCK_SIZE + size < BLOCK_SIZE then 0 else BLOCK_SIZE / size * (m.cores - 1);
    IndexJump(x, size, 1 + skip);
  }

  lemma SkippedElements(m: Machine, t: int, size: nat)
    requires ElemSize(size) && Wf(m)
    ensures var skip := if (t - m.chunkBase) % BLOCK_SIZE + size < BLOCK_SIZE then 0 else BLOCK_SIZE / size * (m.cores - 1);
      skip >= 0 && skip * size == Skipped(m, t, size)
  {
    WholeBlock(size);
    SwapFactors(BLOCK_SIZE / size, m.cores - 1, size);
  }

  lemma SwapFactors(e: int, p: int, size: int)
    ensures (e * p) * size == (e * size) * p
  {
  }

  lemma IndexJump(x: int, size: nat, k: nat)
    requires size >= 1 && x % size == 0
    ensures (x + size + (k - 1) * size) / size == x / size + k
  {
    ExactDiv(x, size);
    assert x + size + (k - 1) * size == (x / size + k) * size;
    MultipleOf(x / size + k, size);
  }

  lemma LinearNext(m: Machine, c: nat, size: nat, t: int)
    requires Wf(m) && t >= m.chunkBase && (t - m.chunkBase) % BLOCK_SIZE + size <= BLOCK_SIZE && size >= 1
    ensures Linear(m, t + size, c) == Linear(m, t, c) + size + Skipped(m, t, size)
  {
    var tt := t - m.chunkBase;
    var q := tt / BLOCK_SIZE;
    if tt % BLOCK_SIZE + size < BLOCK_SIZE {
      assert (tt + size) / BLOCK_SIZE == q;
    } else {
      assert (tt + size) / BLOCK_SIZE == q + 1 && (tt + size) % BLOCK_SIZE == 0;
      assert (q + 1) * m.cores == q * m.cores + m.cores;
    }
  }

  /** What the loop knows before the element at t: how many elements are left in its block, and its index. */
  ghost predicate InStep(m: Machine, base: nat, size: nat, c: nat, t: int, index: int, toBoundary: int) {
    && OnElement(m, base, size, c, t)
    && var r := (t - m.chunkBase) % BLOCK_SIZE;
       if toBoundary == 0
       then r == 0 && index + BLOCK_SIZE / size * (m.cores - 1) == Index(m, base, size, c, t)
       else toBoundary * size == BLOCK_SIZE - r && index == Index(m, base, size, c, t)
  }

  lemma FirstInStep(m: Machine, base: nat, size: nat, c: nat, t: int)
    requires OnElement(m, base, size, c, t)
    ensures var a := Linear(m, t, c);
      InStep(m, base, size, c, t, Index(m, base, size, c, t), (BlockMax(a, size) - a) / size)
  {
    var a, r := Linear(m, t, c), (t - m.chunkBase) % BLOCK_SIZE;
    LinearAligned(m, base, size, c, t);
    LinearDigits(m, t, c);
    BlockMaxAligned(a, size);
    OffsetAligned(t - m.chunkBase, size);
    GapAligned(r, size);
    ExactDiv(BLOCK_SIZE - r, size);
  }

  /** Crossing into the next local block skips the blocks of the other cores. */
  lemma CrossBlock(m: Machine, base: nat, size: nat, c: nat, t: int, index: int)
    requires InStep(m, base, size, c, t, index, 0)
    ensures BLOCK_SIZE / size != 0
    ensures InStep(m, base, size, c, t, index + BLOCK_SIZE / size * (m.cores - 1), BLOCK_SIZE / size)
  {
    WholeBlock(size);
  }

  lemma NextInStep(m: Machine, base: nat, size: nat, c: nat, t: int, index: int, toBoundary: int)
    requires InStep(m, base, size, c, t, index, toBoundary) && toBoundary != 0
    ensures InStep(m, base, size, c, t + size, index + 1, toBoundary - 1)
  {
    hide Index;
    NextOnElement(m, base, size, c, t);
    OffsetNext(m, base, size, c, t);
    IndexNext(m, base, size, c, t);
    MulNextInt(toBoundary - 1, size);
    LastOne(toBoundary - 1, size);
  }

  lemma MulNextInt(n: int, size: int)
    ensures (n + 1) * size == n * size + size
  {
  }

  lemma LastOne(n: int, size: nat)
    requires size >= 1
    ensures n * size == 0 <==> n == 0
  {
  }

  /** The loop over one leaf: it keeps the global index by counting, and re-bases it at every block boundary. */
  method IndexLoop(m: Machine, base: nat, size: nat, c: nat, start: int, niters: nat, first: int)
    returns (visits: seq<Visit>)
    requires OnElement(m, base, size, c, first) && start == Index(m, base, size, c, first)
    ensures visits == LocalVisits(m, base, size, c, first, niters)
  {
    hide Index, BlockMax, InStep, Linear;
    var blockElems := BLOCK_SIZE / size;
    var a := Linear(m, first, c);
    var toBoundary := (BlockMax(a, size) - a) / size;
    var index := start;
    visits := [];
    FirstInStep(m, base, size, c, first);
    for i := 0 to niters
      invariant visits == LocalVisits(m, base, size, c, first, i)
      invariant InStep(m, base, size, c, first + i * size, index, toBoundary)
    {
      if toBoundary == 0 {
        CrossBlock(m, base, size, c, first + i * size, index);
        index := index + blockElems * (m.cores - 1);
        toBoundary := blockElems;
      }
      InStepIndex(m, base, size, c, first + i * size, index, toBoundary);
      visits := visits + [Visit(c, index, first + i * size)];
      NextInStep(m, base, size, c, first + i * size, index, toBoundary);
      MulNext(i, size);
      index := index + 1;
      toBoundary := toBoundary - 1;
    }
  }

  lemma InStepIndex(m: Machine, base: nat, size: nat, c: nat, t: int, index: int, toBoundary: int)
    requires InStep(m, base, size, c, t, index, toBoundary) && toBoundary != 0
    ensures t >= m.chunkBase && size >= 1 && index == Index(m, base, size, c, t)
  {
  }

  // ---------- The localized forall ----------

  /** The visit that a forall over n elements owes to v's index. */
  predicate Expected(m: Machine, base: nat, n: nat, size: nat, v: Visit)
    requires Wf(m)
  {
    && 0 <= v.index < n && v.core == CoreOf(m, End(base, v.index, size))
    && v.element == Pointer(m, End(base, v.index, size))
  }

  predicate InLocal(m: Machine, base: nat, size: nat, c: nat, first: int, n: nat, v: Visit)
    requires size >= 1
  {
    && v.core == c && first <= v.element < first + n * size && (v.element - first) % size == 0
    && v.element >= m.chunkBase && v.index == Index(m, base, size, c, v.element)
  }

  /** A core's visits are distinct: each local element is visited once, with its index. */
  lemma {:induction false} LocalVisitsCount(m: Machine, base: nat, size: nat, c: nat, first: int, n: nat, v: Visit)
    requires size >= 1 && first >= m.chunkBase
    ensures multiset(LocalVisits(m, base, size, c, first, n))[v] ==
      if InLocal(m, base, size, c, first, n, v) then 1 else 0
  {
    if n > 0 {
      hide Index, InLocal;
      LocalVisitsCount(m, base, size, c, first, n - 1, v);
      InLocalStep(m, base, size, c, first, n - 1, v);
    } else {
      assert 0 * size == 0;
    }
  }

  lemma InLocalStep(m: Machine, base: nat, size: nat, c: nat, first: int, n: nat, v: Visit)
    requires size >= 1 && first >= m.chunkBase
    ensures var t := first + n * size;
      var last := Visit(c, Index(m, base, size, c, t), t);
      && (InLocal(m, base, size, c, first, n + 1, v) <==> InLocal(m, base, size, c, first, n, v) || v == last)
      && !InLocal(m, base, size, c, first, n, last)
  {
    hide Index;
    MulNext(n, size);
    LastElement(v.element - first, n, size);
  }

  lemma LastElement(d: int, n: nat, size: nat)
    requires size >= 1
    ensures n * size <= d < n * size + size && d % size == 0 <==> d == n * size
  {
    MultipleOf(n, size);
    if n * size <= d < n * size + size {
      DivMod(d, size, n, d - n * size);
    }
  }

  lemma {:induction false} LocalVisitsConcat(m: Machine, base: nat, size: nat, c: nat, first: int, n1: nat, n2: nat)
    requires size >= 1 && first >= m.chunkBase
    ensures LocalVisits(m, base, size, c, first, n1) + LocalVisits(m, base, size, c, first + n1 * size, n2) ==
      LocalVisits(m, base, size, c, first, n1 + n2)
  {
    if n2 > 0 {
      hide Index;
      LocalVisitsConcat(m, base, size, c, first, n1, n2 - 1);
      Distribute(0, n1, n2 - 1, size);
    }
  }

  lemma TileEnd(ranges: seq<Range>, lo: int, hi: int)
    requires Tile(ranges, lo, hi)
    ensures ranges == [] ==> lo == hi
    ensures ranges != [] ==>
      ranges[0].start == lo && ranges[0].iters >= 1 && Tile(ranges[1..], lo + ranges[0].iters, hi)
  {
  }

  lemma ShiftOnElement(m: Machine, base: nat, size: nat, c: nat, t: int, k: nat)
    requires OnElement(m, base, size, c, t)
    ensures OnElement(m, base, size, c, t + k * size)
  {
    MultipleOf(k, size);
    AddMultiple(t - m.chunkBase, k * size, size);
  }

  lemma NoVisits(m: Machine, base: nat, size: nat, c: nat, localBase: int)
    requires OnElement(m, base, size, c, localBase)
    ensures LocalVisits(m, base, size, c, localBase, 0) == []
  {
  }

  /** What one core does: its local range, decomposed; every leaf runs the index loop. */
  method ForallOnCore(m: Machine, base: nat, size: nat, c: nat, localBase: int, nlocal: nat, threshold: nat, flag: nat)
    returns (visits: multiset<Visit>)
    requires OnElement(m, base, size, c, localBase) && nlocal < LIMIT_48 && (threshold >= 1 || flag >= 1)
    ensures visits == multiset(LocalVisits(m, base, size, c, localBase, nlocal))
  {
    hide Index, OnElement, Tile, Leaves, LocalVisits;
    OnElementFacts(m, base, size, c, localBase);
    NoVisits(m, base, size, c, localBase);
    LeavesTile(0, nlocal, threshold, flag);
    var leaves := Leaves(0, nlocal, threshold, flag);
    visits := multiset{};
    var lo: nat := 0;
    while leaves != []
      invariant Tile(leaves, lo, nlocal) && visits == multiset(LocalVisits(m, base, size, c, localBase, lo))
      decreases |leaves|
    {
      TileEnd(leaves, lo, nlocal);
      var n := leaves[0].iters;
      ShiftOnElement(m, base, size, c, localBase, lo);
      ghost var before := LocalVisits(m, base, size, c, localBase, lo);
      var first := localBase + leaves[0].start * size;
      OnElementFacts(m, base, size, c, first);
      var vs := IndexLoop(m, base, size, c, Index(m, base, size, c, first), n, first);
      LocalVisitsConcat(m, base, size, c, localBase, lo, n);
      assert before + vs == LocalVisits(m, base, size, c, localBase, lo + n);
      visits := visits + multiset(vs);
      lo := lo + n;
      leaves := leaves[1..];
    }
    TileEnd([], lo, nlocal);
  }

  lemma OnElementFacts(m: Machine, base: nat, size: nat, c: nat, t: int)
    requires OnElement(m, base, size, c, t)
    ensures size >= 1 && t >= m.chunkBase
  {
  }

  /** The local range of a core holds exactly the visits expected of that core. */
  lemma LocalIsExpected(m: Machine, base: nat, n: nat, size: nat, c: nat, v: Visit)
    requires Wf(m) && ElemSize(size) && base % size == 0 && c < m.cores
    ensures LocalSize(m, base, n, size, c) >= 0
    ensures InLocal(m, base, size, c, Localize(m, base, size, c), LocalSize(m, base, n, size, c), v) <==>
      v.core == c && Expected(m, base, n, size, v)
  {
    var first, k := Localize(m, base, size, c), LocalSize(m, base, n, size, c);
    LocalSizeIsOwned(m, base, n, size, c);
    LocalSizeCounts(m, base, n, size, c);
    LocalizeInChunk(m, base, size, c);
    if InLocal(m, base, size, c, first, k, v) {
      LocalExpected(m, base, n, size, c, v);
    }
    if v.core == c && Expected(m, base, n, size, v) {
      ExpectedLocal(m, base, n, size, v);
    }
  }

  lemma LocalExpected(m: Machine, base: nat, n: nat, size: nat, c: nat, v: Visit)
    requires Wf(m) && ElemSize(size) && base % size == 0 && c < m.cores
    requires var first := Localize(m, base, size, c);
      && first <= v.element < Localize(m, End(base, n, size), size, c) && (v.element - first) % size == 0
      && v.element >= m.chunkBase && v.index == Index(m, base, size, c, v.element) && v.core == c
    ensures Expected(m, base, n, size, v)
  {
    hide Localize, Linear, CoreOf, Pointer;
    var t, first := v.element, Localize(m, base, size, c);
    var x := Linear(m, t, c);
    LocalRangeExact(m, base, End(base, n, size), size, c, t);
    LocalizeInChunk(m, base, size, c);
    AddMultiple(first - m.chunkBase, t - first, size);
    assert OnElement(m, base, size, c, t);
    LinearAligned(m, base, size, c, t);
    DiffAligned(x, base, size);
    ExactDiv(x - base, size);
    assert End(base, v.index, size) == x;
    IndexBelow(v.index, n, size);
    LinearRoundTrip(m, t, c);
  }

  lemma IndexBelow(i: int, n: nat, size: nat)
    requires size >= 1
    ensures 0 <= i * size < n * size <==> 0 <= i < n
  {
    if i < 0 { MulMonotone(i, -1, size); } else { MulMonotone(0, i, size); }
    if i < n { MulMonotone(i + 1, n, size); MulNextInt(i, size); } else { MulMonotone(n, i, size); }
  }

  lemma ExpectedLocal(m: Machine, base: nat, n: nat, size: nat, v: Visit)
    requires Wf(m) && ElemSize(size) && base % size == 0 && Expected(m, base, n, size, v)
    ensures var c := v.core;
      && c < m.cores && Localize(m, base, size, c) <= v.element < Localize(m, End(base, n, size), size, c)
      && (v.element - Localize(m, base, size, c)) % size == 0
      && v.element >= m.chunkBase && v.index == Index(m, base, size, c, v.element)
  {
    hide Localize, Linear, CoreOf;
    var x, c, t := End(base, v.index, size), v.core, v.element;
    PointerRoundTrip(m, x);
    IndexBelow(v.index, n, size);
    LocalRangeExact(m, base, End(base, n, size), size, c, t);
    LocalizeInChunk(m, base, size, c);
    EndNext(base, v.index, size);
    PointerAligned(m, x, size);
    DiffAligned(t - m.chunkBase, Localize(m, base, size, c) - m.chunkBase, size);
    MultipleOf(v.index, size);
  }

  lemma PointerAligned(m: Machine, x: nat, size: nat)
    requires Wf(m) && ElemSize(size) && x % size == 0
    ensures (Pointer(m, x) - m.chunkBase) % size == 0
  {
    OffsetAligned(x, size);
    var q := x / BLOCK_SIZE / m.cores;
    MultipleTrans(q * BLOCK_SIZE, BLOCK_SIZE, size);
    AddMultiple(q * BLOCK_SIZE, x % BLOCK_SIZE, size);
  }

  // ---------- Exactly once ----------

  ghost predicate VisitedUpTo(m: Machine, base: nat, n: nat, size: nat, k: nat, visits: multiset<Visit>)
    requires Wf(m)
  {
    forall v :: visits[v] ==
      if Expected(m, base, n, size, v) && Visited(m, CoreOf(m, base), k, v.core) then 1 else 0
  }

  lemma NextCoreNew(m: Machine, startCore: nat, k: nat)
    requires Wf(m) && k < m.cores
    ensures !Visited(m, startCore, k, NthCore(m, startCore, k))
    ensures forall c :: Visited(m, startCore, k + 1, c) <==> Visited(m, startCore, k, c) || c == NthCore(m, startCore, k)
  {
    if Visited(m, startCore, k, NthCore(m, startCore, k)) {
      var i: nat :| i < k && NthCore(m, startCore, k) == NthCore(m, startCore, i);
      CoresApart(startCore + i, k - i, m.cores);
    }
  }

  /** One more core adds its own share, and that share was missing. */
  lemma AddCore(m: Machine, base: nat, n: nat, size: nat, k: nat, visits: multiset<Visit>)
    requires Wf(m) && ElemSize(size) && base % size == 0 && k < m.cores
    requires VisitedUpTo(m, base, n, size, k, visits)
    ensures var c := NthCore(m, CoreOf(m, base), k);
      && OnElement(m, base, size, c, Localize(m, base, size, c)) && 0 <= LocalSize(m, base, n, size, c)
      && VisitedUpTo(m, base, n, size, k + 1, visits +
           multiset(LocalVisits(m, base, size, c, Localize(m, base, size, c), LocalSize(m, base, n, size, c))))
  {
    hide Localize, LocalSize, CoreOf, Expected, InLocal, Visited, LocalVisits;
    var s := CoreOf(m, base);
    var c := NthCore(m, s, k);
    LocalizeInChunk(m, base, size, c);
    LocalSizeCounts(m, base, n, size, c);
    var vs := LocalVisits(m, base, size, c, Localize(m, base, size, c), LocalSize(m, base, n, size, c));
    NextCoreNew(m, s, k);
    forall v
      ensures (visits + multiset(vs))[v] == if Expected(m, base, n, size, v) && Visited(m, s, k + 1, v.core) then 1 else 0
    {
      LocalVisitsCount(m, base, size, c, Localize(m, base, size, c), LocalSize(m, base, n, size, c), v);
      LocalIsExpected(m, base, n, size, c, v);
    }
  }

  /**
   The localized forall: a message to every core that holds elements; each runs its
   part.  Every index is visited exactly once, on its home core and with its element,
   and nothing else is visited.
   */
  method Forall(m: Machine, base: nat, nelems: nat, size: nat, threshold: nat, flag: nat)
    returns (visits: multiset<Visit>)
    requires Wf(m) && ElemSize(size) && base % size == 0 && 0 < nelems < LIMIT_48
    requires threshold >= 1 || flag >= 1
    ensures forall v :: visits[v] == if Expected(m, base, nelems, size, v) then 1 else 0
  {
    hide Localize, CoreOf, Expected, Visited, VisitedUpTo, LocalSize, Spanned, OnElement;
    var startCore, fc := CoresWithElements(m, base, nelems, size);
    SpannedPositive(base, nelems, size);
    visits := multiset{};
    NobodyVisited(m, base, nelems, size);
    for i := 0 to fc
      invariant VisitedUpTo(m, base, nelems, size, i, visits)
    {
      var c := NthCore(m, startCore, i);
      var localBase := Localize(m, base, size, c);
      var nlocal := LocalSize(m, base, nelems, size, c);
      AddCore(m, base, nelems, size, i, visits);
      LocalSizeBound(m, base, nelems, size, c);
      var vs := ForallOnCore(m, base, size, c, localBase, nlocal, threshold, flag);
      visits := visits + vs;
    }
    AllVisited(m, base, nelems, size, fc, visits);
  }

  lemma SpannedPositive(base: nat, n: nat, size: nat)
    requires n > 0 && size >= 1
    ensures Spanned(base, n, size) >= 1
  {
    MulMonotone(1, n, size);
  }

  lemma NobodyVisited(m: Machine, base: nat, n: nat, size: nat)
    requires Wf(m)
    ensures VisitedUpTo(m, base, n, size, 0, multiset{})
  {
  }

  lemma LocalSizeBound(m: Machine, base: nat, n: nat, size: nat, c: nat)
    requires Wf(m) && ElemSize(size) && base % size == 0 && c < m.cores
    ensures 0 <= LocalSize(m, base, n, size, c) <= n
  {
    LocalSizeCounts(m, base, n, size, c);
    OwnedBound(m, base, n, size, c);
  }

  lemma {:induction false} OwnedBound(m: Machine, base: nat, n: nat, size: nat, c: nat)
    requires Wf(m)
    ensures Owned(m, base, n, size, c) <= n
  {
    if n > 0 { OwnedBound(m, base, n - 1, size, c); }
  }

  lemma AllVisited(m: Machine, base: nat, n: nat, size: nat, fc: int, visits: multiset<Visit>)
    requires Wf(m) && ElemSize(size) && base % size == 0 && n > 0
    requires fc == Min(Spanned(base, n, size), m.cores) && fc >= 0 && VisitedUpTo(m, base, n, size, fc, visits)
    ensures forall v :: visits[v] == if Expected(m, base, n, size, v) then 1 else 0
  {
    hide CoreOf, Visited, Spanned, Pointer;
    forall v ensures visits[v] == if Expected(m, base, n, size, v) then 1 else 0 {
      if Expected(m, base, n, size, v) {
        IndexBelow(v.index, n, size);
        OwnerVisited(m, base, n, size, End(base, v.index, size));
      }
    }
  }
}
