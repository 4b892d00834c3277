/**
 Linear global addresses: bytes dealt out to the cores in blocks of 64, block by
 block.  The maps between a linear address and a (core, local pointer) pair, and the
 part of a global range that is local to a core.
 */
module Addressing {
  import opened Bits

  const BLOCK_SIZE: nat := 64

  /** The number of cores, and the address of the global memory chunk, the same on every core. */
  datatype Machine = Machine(cores: nat, chunkBase: int)

  predicate Wf(m: Machine) {
    m.cores >= 1
  }

  // ---------- The operations ----------

  /** `core` */
  function CoreOf(m: Machine, g: nat): nat
    requires Wf(m)
  {
    (g / BLOCK_SIZE) % m.cores
  }

  /** `pointer` */
  function Pointer(m: Machine, g: nat): int
    requires Wf(m)
  {
    (g / BLOCK_SIZE) / m.cores * BLOCK_SIZE + g % BLOCK_SIZE + m.chunkBase
  }

  /** `Linear`, on the given core */
  function Linear(m: Machine, t: int, core: nat): nat
    requires t >= m.chunkBase
  {
    var tt := t - m.chunkBase;
    (tt / BLOCK_SIZE * m.cores + core) * BLOCK_SIZE + tt % BLOCK_SIZE
  }

  /** `block_min` */
  function BlockMin(g: nat): nat {
    g - g % BLOCK_SIZE
  }

  /** `block_max`, for elements of size bytes */
  function BlockMax(g: nat, size: nat): nat
    requires size >= 1
  {
    g + size + BLOCK_SIZE - ((g + size - 1) % BLOCK_SIZE + 1)
  }

  /** `localize`, on core nid */
  function Localize(m: Machine, g: nat, size: nat, nid: nat): int
    requires Wf(m) && size >= 1
  {
    var blockElems := BLOCK_SIZE / size;
    var blockBase := Pointer(m, BlockMin(g));
    if nid < CoreOf(m, g) then blockBase + blockElems * size
    else if nid > CoreOf(m, g) then blockBase
    else Pointer(m, g)
  }

  /** The element sizes that fill a block. */
  predicate ElemSize(size: nat) {
    size >= 1 && BLOCK_SIZE % size == 0
  }

  // ---------- Linear addresses are (core, local pointer) pairs ----------

  lemma DivModRecompose(x: nat, d: nat)
    requires d >= 1
    ensures x == x / d * d + x % d && x % d < d
  {
  }

  lemma LinearDigits(m: Machine, t: int, core: nat)
    requires Wf(m) && t >= m.chunkBase && core < m.cores
    ensures var g, tt := Linear(m, t, core), t - m.chunkBase;
      && g / BLOCK_SIZE == tt / BLOCK_SIZE * m.cores + core && g % BLOCK_SIZE == tt % BLOCK_SIZE
      && CoreOf(m, g) == core && (g / BLOCK_SIZE) / m.cores == tt / BLOCK_SIZE
  {
    var tt := t - m.chunkBase;
    DivMod(tt / BLOCK_SIZE * m.cores + core, m.cores, tt / BLOCK_SIZE, core);
  }

  /** A local pointer made linear has its own core and pointer back: the checks in `Linear` never fail. */
  lemma LinearRoundTrip(m: Machine, t: int, core: nat)
    requires Wf(m) && t >= m.chunkBase && core < m.cores
    ensures CoreOf(m, Linear(m, t, core)) == core && Pointer(m, Linear(m, t, core)) == t
  {
    LinearDigits(m, t, core);
  }

  /** Every linear address is the address of its pointer on its core. */
  lemma PointerRoundTrip(m: Machine, g: nat)
    requires Wf(m)
    ensures CoreOf(m, g) < m.cores && Pointer(m, g) >= m.chunkBase
    ensures Linear(m, Pointer(m, g), CoreOf(m, g)) == g
  {
    var b := g / BLOCK_SIZE;
    DivModRecompose(b, m.cores);
    assert (Pointer(m, g) - m.chunkBase) / BLOCK_SIZE == b / m.cores;
    assert (Pointer(m, g) - m.chunkBase) % BLOCK_SIZE == g % BLOCK_SIZE;
  }

  // ---------- Localization ----------

  /** Two-digit numbers compare digit by digit. */
  lemma DigitsOrder(q: int, c: int, q': int, c': int, p: int)
    requires 0 <= c < p && 0 <= c' < p
    ensures q * p + c <= q' * p + c' <==> q < q' || (q == q' && c <= c')
  {
    if q < q' {
      MulAtLeast(q' - q, p);
      assert (q' - q) * p == q' * p - q * p;
    } else if q > q' {
      MulAtLeast(q - q', p);
      assert (q - q') * p == q * p - q' * p;
    }
  }

  lemma BlockMinPointer(m: Machine, g: nat)
    requires Wf(m)
    ensures Pointer(m, BlockMin(g)) == (g / BLOCK_SIZE) / m.cores * BLOCK_SIZE + m.chunkBase
  {
    assert BlockMin(g) / BLOCK_SIZE == g / BLOCK_SIZE && BlockMin(g) % BLOCK_SIZE == 0;
  }

  lemma WholeBlock(size: nat)
    requires ElemSize(size)
    ensures BLOCK_SIZE / size * size == BLOCK_SIZE && size <= BLOCK_SIZE && BLOCK_SIZE / size >= 1
  {
    ExactDiv(BLOCK_SIZE, size);
  }

  /** On core nid, a local pointer is at or above g's localization exactly when its linear address is at or above g. */
  lemma LocalizeOrder(m: Machine, g: nat, size: nat, nid: nat, t: int)
    requires Wf(m) && ElemSize(size) && nid < m.cores && t >= m.chunkBase
    ensures g <= Linear(m, t, nid) <==> Localize(m, g, size, nid) <= t
  {
    var x, tt, b := Linear(m, t, nid), t - m.chunkBase, g / BLOCK_SIZE;
    LinearDigits(m, t, nid);
    BlockMinPointer(m, g);
    WholeBlock(size);
    DivModRecompose(b, m.cores);
    DigitsOrder(b / m.cores, CoreOf(m, g), tt / BLOCK_SIZE, nid, m.cores);
    DigitsOrder(tt / BLOCK_SIZE, nid, b / m.cores, CoreOf(m, g), m.cores);
    DigitsOrder(b, g % BLOCK_SIZE, x / BLOCK_SIZE, x % BLOCK_SIZE, BLOCK_SIZE);
  }

  /** The local range of [base, end) on core nid holds exactly that core's bytes of the global range. */
  lemma LocalRangeExact(m: Machine, base: nat, end: nat, size: nat, nid: nat, t: int)
    requires Wf(m) && ElemSize(size) && nid < m.cores && t >= m.chunkBase
    ensures Localize(m, base, size, nid) <= t < Localize(m, end, size, nid) <==> base <= Linear(m, t, nid) < end
  {
    LocalizeOrder(m, base, size, nid, t);
    LocalizeOrder(m, end, size, nid, t);
  }

  lemma LocalizeInChunk(m: Machine, g: nat, size: nat, nid: nat)
    requires Wf(m) && ElemSize(size)
    ensures Localize(m, g, size, nid) >= m.chunkBase
    ensures g % size == 0 ==> (Localize(m, g, size, nid) - m.chunkBase) % size == 0
  {
    WholeBlock(size);
    BlockMinPointer(m, g);
    var q := (g / BLOCK_SIZE) / m.cores;
    MultipleTrans(q * BLOCK_SIZE, BLOCK_SIZE, size);
    MultipleTrans((q + 1) * BLOCK_SIZE, BLOCK_SIZE, size);
    if g % size == 0 {
      OffsetAligned(g, size);
      AddMultiple(q * BLOCK_SIZE, g % BLOCK_SIZE, size);
    }
  }

  lemma OffsetAligned(g: nat, size: nat)
    requires ElemSize(size)
    ensures (g % BLOCK_SIZE) % size == g % size
  {
    WholeBlock(size);
    var k, r := g / BLOCK_SIZE, g % BLOCK_SIZE;
    assert g == (k * (BLOCK_SIZE / size) + r / size) * size + r % size by {
      assert k * BLOCK_SIZE == k * (BLOCK_SIZE / size * size) == k * (BLOCK_SIZE / size) * size;
    }
    DivMod(g, size, k * (BLOCK_SIZE / size) + r / size, r % size);
  }

  // ---------- Counting local elements ----------

  /** An element does not cross its block's end. */
  lemma ElementInBlock(g: nat, size: nat)
    requires ElemSize(size) && g % size == 0
    ensures g % BLOCK_SIZE + size <= BLOCK_SIZE
  {
    OffsetAligned(g, size);
    WholeBlock(size);
    var r := g % BLOCK_SIZE;
    ExactDiv(r, size);
    var i, e := r / size, BLOCK_SIZE / size;
    if i >= e {
      assert i * size >= e * size by { MulMonotone(e, i, size); }
    } else {
      MulMonotone(i + 1, e, size);
    }
  }

  lemma MulMonotone(a: int, b: int, p: int)
    requires a <= b && p >= 0
    ensures a * p <= b * p
  {
  }

  /** Moving the end of a range past one element moves its localization on the owner only. */
  lemma LocalizeStep(m: Machine, g: nat, size: nat, nid: nat)
    requires Wf(m) && ElemSize(size) && g % size == 0 && nid < m.cores
    ensures Localize(m, g + size, size, nid) ==
      Localize(m, g, size, nid) + if CoreOf(m, g) == nid then size else 0
  {
    var b, r := g / BLOCK_SIZE, g % BLOCK_SIZE;
    ElementInBlock(g, size);
    WholeBlock(size);
    BlockMinPointer(m, g);
    BlockMinPointer(m, g + size);
    if r + size < BLOCK_SIZE {
      assert (g + size) / BLOCK_SIZE == b && (g + size) % BLOCK_SIZE == r + size;
    } else {
      assert (g + size) / BLOCK_SIZE == b + 1 && (g + size) % BLOCK_SIZE == 0;
      NextDigits(b, m.cores);
    }
  }

  lemma NextDigits(b: nat, p: nat)
    requires p >= 1
    ensures b % p + 1 < p ==> (b + 1) / p == b / p && (b + 1) % p == b % p + 1
    ensures b % p + 1 == p ==> (b + 1) / p == b / p + 1 && (b + 1) % p == 0
  {
    DivModRecompose(b, p);
    if b % p + 1 < p {
      DivMod(b + 1, p, b / p, b % p + 1);
    } else {
      DivMod(b + 1, p, b / p + 1, 0);
    }
  }

  /** How many of the n elements from base on have their home on core c. */
  function Owned(m: Machine, base: nat, n: nat, size: nat, c: nat): nat
    requires Wf(m)
  {
    if n == 0 then 0
    else Owned(m, base, n - 1, size, c) + if CoreOf(m, End(base, n - 1, size)) == c then 1 else 0
  }

  lemma MulNext(n: nat, size: nat)
    ensures (n + 1) * size == n * size + size
  {
  }

  /** The end of n elements from base on. */
  function End(base: nat, n: nat, size: nat): nat {
    base + n * size
  }

  lemma EndNext(base: nat, n: nat, size: nat)
    requires size >= 1 && base % size == 0
    ensures End(base, n + 1, size) == End(base, n, size) + size && End(base, n, size) % size == 0
  {
    MulNext(n, size);
    MultipleOf(n, size);
    AddMultiple(base, n * size, size);
  }

  /** The localized range of n elements is as long as the core's share of them. */
  lemma {:induction false} LocalSizeIsOwned(m: Machine, base: nat, n: nat, size: nat, c: nat)
    requires Wf(m) && ElemSize(size) && base % size == 0 && c < m.cores
    ensures Localize(m, End(base, n, size), size, c) - Localize(m, base, size, c) == Owned(m, base, n, size, c) * size
  {
    if n > 0 {
      hide Localize, CoreOf, End;
      LocalSizeIsOwned(m, base, n - 1, size, c);
      EndNext(base, n - 1, size);
      LocalizeStep(m, End(base, n - 1, size), size, c);
      MulNext(Owned(m, base, n - 1, size, c), size);
    }
  }

  /** `LocalIterator::size` */
  function LocalSize(m: Machine, base: nat, n: nat, size: nat, c: nat): int
    requires Wf(m) && size >= 1
  {
    (Localize(m, End(base, n, size), size, c) - Localize(m, base, size, c)) / size
  }

  lemma LocalSizeCounts(m: Machine, base: nat, n: nat, size: nat, c: nat)
    requires Wf(m) && ElemSize(size) && base % size == 0 && c < m.cores
    ensures LocalSize(m, base, n, size, c) == Owned(m, base, n, size, c)
  {
    LocalSizeIsOwned(m, base, n, size, c);
    MultipleOf(Owned(m, base, n, size, c), size);
  }

  /** The local sizes on the first k cores. */
  function SumLocalSizes(m: Machine, base: nat, n: nat, size: nat, k: nat): int
    requires Wf(m) && size >= 1
  {
    if k == 0 then 0 else SumLocalSizes(m, base, n, size, k - 1) + LocalSize(m, base, n, size, k - 1)
  }

  function SumOwned(m: Machine, base: nat, n: nat, size: nat, k: nat): nat
    requires Wf(m)
  {
    if k == 0 then 0 else SumOwned(m, base, n, size, k - 1) + Owned(m, base, n, size, k - 1)
  }

  lemma {:induction false} SumsAgree(m: Machine, base: nat, n: nat, size: nat, k: nat)
    requires Wf(m) && ElemSize(size) && base % size == 0 && k <= m.cores
    ensures SumLocalSizes(m, base, n, size, k) == SumOwned(m, base, n, size, k)
  {
    if k > 0 {
      SumsAgree(m, base, n, size, k - 1);
      LocalSizeCounts(m, base, n, size, k - 1);
    }
  }

  lemma {:induction false} SumOwnedStep(m: Machine, base: nat, n: nat, size: nat, k: nat)
    requires Wf(m) && n > 0
    ensures SumOwned(m, base, n, size, k) ==
      SumOwned(m, base, n - 1, size, k) + if CoreOf(m, End(base, n - 1, size)) < k then 1 else 0
  {
    if k > 0 {
      SumOwnedStep(m, base, n, size, k - 1);
    }
  }

  lemma {:induction false} SumOwnedZero(m: Machine, base: nat, size: nat, k: nat)
    requires Wf(m)
    ensures SumOwned(m, base, 0, size, k) == 0
  {
    if k > 0 {
      SumOwnedZero(m, base, size, k - 1);
    }
  }

  lemma {:induction false} SumOwnedAll(m: Machine, base: nat, n: nat, size: nat)
    requires Wf(m)
    ensures SumOwned(m, base, n, size, m.cores) == n
  {
    if n == 0 {
      SumOwnedZero(m, base, size, m.cores);
    } else {
      SumOwnedAll(m, base, n - 1, size);
      SumOwnedStep(m, base, n, size, m.cores);
    }
  }

  /** The local sizes over all cores sum to the number of elements. */
  lemma LocalSizesSum(m: Machine, base: nat, n: nat, size: nat)
    requires Wf(m) && ElemSize(size) && base % size == 0
    ensures SumLocalSizes(m, base, n, size, m.cores) == n
  {
    SumsAgree(m, base, n, size, m.cores);
    SumOwnedAll(m, base, n, size);
  }
}
