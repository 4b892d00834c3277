/**
 The constructor, whole runs of mallocs and frees, and exactly which heap sizes make
 every run that frees everything restore the constructor's chunk map: even ones and 1.
 */
module AllocatorRuns {
  import opened Basics
  import opened Sums
  import opened Bits
  import opened Allocator
  import opened AllocatorProofs
  import opened AllocatorCanonical

  // ---------- The constructor ----------

  predicate TiledUpTo(chunks: Chunks, o: nat) {
    (o == 0 && chunks == map[]) || Tiled(chunks, o)
  }

  /** The constructor has carved the first o bytes into free chunks. */
  ghost predicate Carved(h: Heap, o: nat) {
    && TiledUpTo(h.chunks, o) && Pow2Sizes(h.chunks)
    && Listing(h.lists, h.chunks, FreeSet(h.chunks)) && Live(h.chunks) == {}
  }

  function Grown(chunks: Chunks, o: nat, s: nat): Chunks {
    chunks[o := Chunk(false, s)]
  }

  lemma GrowTiled(chunks: Chunks, o: nat, s: nat)
    requires TiledUpTo(chunks, o) && s >= 1
    ensures o !in chunks && Tiled(Grown(chunks, o, s), o + s)
  {
    var chunks' := Grown(chunks, o, s);
    forall b | b in chunks' ensures Follows(chunks', o + s, b) {
      if b in chunks { assert Follows(chunks, o, b); }
    }
  }

  lemma CarveOnceCarved(h: Heap, o: nat, s: nat)
    requires Carved(h, o) && s >= 1 && IsPow2(s)
    ensures Carved(CarveOnce(h, o, s), o + s)
    ensures CarveOnce(h, o, s).chunks == Grown(h.chunks, o, s) && o !in h.chunks
  {
    GrowTiled(h.chunks, o, s);
    InsertListing(h, o, s);
    SameLive(h.chunks, CarveOnce(h, o, s).chunks);
  }

  ghost predicate AllPow2(sizes: seq<nat>) {
    forall i :: 0 <= i < |sizes| ==> IsPow2(sizes[i])
  }

  lemma {:induction false} SizesSum(n: nat)
    requires AtMost2To(n, 63)
    ensures AllPow2(Sizes(n)) && Sum(Sizes(n)) == n
    decreases n
  {
    hide FirstChunk, AtMost2To, IsPow2;
    if n > 0 {
      FirstChunkFits(n);
      AtMostLess(n - FirstChunk(n), n, 63);
      SizesSum(n - FirstChunk(n));
      hide AllPow2, Sum;
      ConsPow2(FirstChunk(n), Sizes(n - FirstChunk(n)));
    }
  }

  lemma ConsPow2(s: nat, sizes: seq<nat>)
    requires IsPow2(s) && AllPow2(sizes)
    ensures AllPow2([s] + sizes) && Sum([s] + sizes) == s + Sum(sizes)
  {
    assert ([s] + sizes)[1..] == sizes;
  }

  lemma {:induction false} CarveCarved(h: Heap, o: nat, sizes: seq<nat>)
    requires Carved(h, o) && AllPow2(sizes)
    ensures Carved(Carve(h, o, sizes), o + Sum(sizes)) && Carve(h, o, sizes).size == h.size
    decreases |sizes|
  {
    hide Carved;
    if sizes != [] {
      CarveOnceCarved(h, o, sizes[0]);
      CarveCarved(CarveOnce(h, o, sizes[0]), o + sizes[0], sizes[1..]);
    }
  }

  /** The constructor builds a valid heap with no live block. */
  lemma InitialValid(n: nat)
    requires n >= 1 && AtMost2To(n, 63)
    ensures Valid(InitialHeap(n)) && InitialHeap(n).size == n && Live(InitialHeap(n).chunks) == {}
  {
    hide Sizes;
    SizesSum(n);
    CarveCarved(Heap(n, map[], map[]), 0, Sizes(n));
  }

  // ---------- Even sizes: an aligned, canonical start ----------

  predicate EvenOrOne(n: nat) {
    n % 2 == 0 || n == 1
  }

  /** The sizes are powers of two, each smaller than the one before; the first is smaller than p. */
  ghost predicate Shrinking(sizes: seq<nat>, p: nat)
    decreases |sizes|
  {
    sizes == [] || (1 <= sizes[0] < p && IsPow2(sizes[0]) && Shrinking(sizes[1..], sizes[0]))
  }

  lemma EvenRest(k: nat, h: nat)
    ensures (2 * k - 2 * h) % 2 == 0
  {
    assert 2 * k - 2 * h == 2 * (k - h);
  }

  /** From an even number of bytes (or from one) the constructor carves the largest power of two that fits. */
  lemma LargestFirst(n: nat, s: nat)
    requires n >= 1 && EvenOrOne(n) && 1 <= s <= n && IsPow2(s)
    requires if IsPow2(n) then s == n else n / 2 <= s < 2 * (n / 2)
    ensures n < 2 * s && (n - s) % 2 == 0
  {
    hide IsPow2;
    if !IsPow2(n) {
      One();
      if n == 2 * s { Double(s); }
      if s > 1 {
        Half(s);
        EvenRest(n / 2, s / 2);
      }
    }
  }

  lemma {:induction false} SizesShrink(n: nat, p: nat)
    requires AtMost2To(n, 63) && EvenOrOne(n) && n < p
    ensures Shrinking(Sizes(n), p)
    decreases n
  {
    hide FirstChunk, AtMost2To, IsPow2;
    if n > 0 {
      var s := FirstChunk(n);
      FirstChunkFits(n);
      LargestFirst(n, s);
      AtMostLess(n - s, n, 63);
      SizesShrink(n - s, s);
      ConsShrinking(s, Sizes(n - s), p);
    }
  }

  lemma ConsShrinking(s: nat, sizes: seq<nat>, p: nat)
    requires 1 <= s < p && IsPow2(s) && Shrinking(sizes, s)
    ensures Shrinking([s] + sizes, p)
  {
    assert ([s] + sizes)[1..] == sizes;
  }

  predicate SizesAtLeast(chunks: Chunks, p: nat) {
    forall a :: a in chunks ==> chunks[a].size >= p
  }

  predicate DistinctSizes(chunks: Chunks) {
    forall a, b :: a in chunks && b in chunks && a != b ==> chunks[a].size != chunks[b].size
  }

  lemma GrowDistinct(chunks: Chunks, o: nat, s: nat, p: nat)
    requires DistinctSizes(chunks) && SizesAtLeast(chunks, p) && s < p && o !in chunks
    ensures DistinctSizes(Grown(chunks, o, s)) && SizesAtLeast(Grown(chunks, o, s), s)
  {
  }

  lemma StillAligned(chunks: Chunks, o: nat, s: nat, p: nat)
    requires Aligned(chunks) && IsPow2(s) && s >= 1 && IsPow2(p) && s < p && o % p == 0
    ensures Aligned(Grown(chunks, o, s)) && (o + s) % s == 0
  {
    Coarser(o, s, p);
    SameRemainder(o, s);
  }

  lemma {:induction false} CarveShrinking(h: Heap, o: nat, sizes: seq<nat>, p: nat)
    requires Shrinking(sizes, p) && IsPow2(p) && p >= 1 && o % p == 0
    requires Carved(h, o) && Aligned(h.chunks) && DistinctSizes(h.chunks) && SizesAtLeast(h.chunks, p)
    ensures Aligned(Carve(h, o, sizes).chunks) && DistinctSizes(Carve(h, o, sizes).chunks)
    decreases |sizes|
  {
    hide Carved, Aligned, DistinctSizes, SizesAtLeast;
    if sizes != [] {
      var s := sizes[0];
      CarveOnceCarved(h, o, s);
      GrowDistinct(h.chunks, o, s, p);
      StillAligned(h.chunks, o, s, p);
      CarveShrinking(CarveOnce(h, o, s), o + s, sizes[1..], s);
    }
  }

  lemma DistinctNoPairs(chunks: Chunks)
    requires DistinctSizes(chunks) && Pow2Sizes(chunks)
    ensures NoPairs(chunks)
  {
    forall c, d ensures !Pair(chunks, c, d) {
      if c in chunks { XorPow2(c, chunks[c].size); }
    }
  }

  lemma InitialCanonical(n: nat)
    requires n >= 1 && AtMost2To(n, 63) && EvenOrOne(n)
    ensures Canonical(InitialHeap(n).chunks)
  {
    var k: nat :| n <= Pow2(k);
    var p := Pow2(k + 1);
    SizesShrink(n, p);
    assert IsPow2(p);
    CarveShrinking(Heap(n, map[], map[]), 0, Sizes(n), p);
    InitialValid(n);
    DistinctNoPairs(InitialHeap(n).chunks);
  }

  // ---------- Odd sizes: a misaligned tail ----------

  /** Some sizes other than one, then one byte, then two. */
  predicate OddSizes(sizes: seq<nat>)
    decreases |sizes|
  {
    sizes == [1, 2] || (|sizes| > 2 && sizes[0] >= 2 && OddSizes(sizes[1..]))
  }

  lemma OddRest(k: nat, h: nat)
    requires k >= 2 && k <= 2 * h < 2 * k
    ensures 2 * k + 1 - 2 * h >= 3 && (2 * k + 1 - 2 * h) % 2 == 1
  {
    assert 2 * k + 1 - 2 * h == 2 * (k - h) + 1;
  }

  lemma OddSplit(n: nat, s: nat)
    requires n >= 5 && n % 2 == 1 && IsPow2(s)
    requires if IsPow2(n) then s == n else n / 2 <= s < 2 * (n / 2)
    ensures s >= 2 && n - s >= 3 && (n - s) % 2 == 1
  {
    hide IsPow2;
    if IsPow2(n) {
      Half(n);
      assert false;
    } else {
      var h, k := s / 2, n / 2;
      Half(s);
      OddRest(k, h);
    }
  }

  lemma SizesOfThree(n: nat)
    requires n == 3 && AtMost2To(n, 63)
    ensures Sizes(n) == [1, 2]
  {
    hide FirstChunk, IsPow2, AtMost2To;
    One();
    Double(1);
    FirstChunkFits(n);
    assert !IsPow2(n) by { if IsPow2(n) { Half(n); } }
    var m := n - FirstChunk(n);
    AtMostLess(m, n, 63);
    FirstChunkFits(m);
  }

  lemma {:induction false} SizesOdd(n: nat)
    requires AtMost2To(n, 63) && n >= 3 && n % 2 == 1
    ensures OddSizes(Sizes(n))
    decreases n
  {
    hide FirstChunk;
    if n == 3 {
      SizesOfThree(n);
    } else {
      var s := FirstChunk(n);
      FirstChunkFits(n);
      OddSplit(n, s);
      AtMostLess(n - s, n, 63);
      SizesOdd(n - s);
      ConsOdd(s, Sizes(n - s));
    }
  }

  lemma ConsOdd(s: nat, sizes: seq<nat>)
    requires s >= 2 && OddSizes(sizes)
    ensures OddSizes([s] + sizes)
  {
    assert ([s] + sizes)[1..] == sizes;
  }

  /** The last two chunks of an odd-sized heap: one byte, then two bytes at an odd offset. */
  predicate OddTail(h: Heap, p: nat) {
    && p in h.chunks && h.chunks[p] == Chunk(false, 1)
    && p + 1 in h.chunks && h.chunks[p + 1] == Chunk(false, 2)
    && 1 in h.lists && h.lists[1] == [p]
    && 2 in h.lists && h.lists[2] != [] && h.lists[2][0] == p + 1
  }

  lemma {:induction false} CarveOdd(h: Heap, o: nat, sizes: seq<nat>)
    requires OddSizes(sizes) && 1 !in h.lists
    ensures Sum(sizes) >= 3 && OddTail(Carve(h, o, sizes), o + Sum(sizes) - 3)
    decreases |sizes|
  {
    var h1 := CarveOnce(h, o, sizes[0]);
    if sizes == [1, 2] {
      assert sizes[1..] == [2] && sizes[1..][1..] == [];
      var h2 := CarveOnce(h1, o + 1, 2);
      assert Carve(h, o, sizes) == Carve(h1, o + 1, sizes[1..]) == Carve(h2, o + 3, []) == h2;
      assert Sum(sizes) == 1 + Sum([2]) && Sum([2]) == 2 + Sum([]);
    } else {
      CarveOdd(h1, o + sizes[0], sizes[1..]);
    }
  }

  lemma InitialOdd(n: nat)
    requires AtMost2To(n, 63) && n >= 3 && n % 2 == 1
    ensures OddTail(InitialHeap(n), n - 3) && !Aligned(InitialHeap(n).chunks)
  {
    hide Sizes, Carve, AtMost2To;
    SizesOdd(n);
    SizesSum(n);
    CarveOdd(Heap(n, map[], map[]), 0, Sizes(n));
    assert (n - 2) % 2 == 1;
  }

  /** The constructor aligns every chunk to its size exactly when the heap size is even or 1. */
  lemma InitialAlignedIff(n: nat)
    requires n >= 1 && AtMost2To(n, 63)
    ensures Aligned(InitialHeap(n).chunks) <==> EvenOrOne(n)
  {
    if EvenOrOne(n) { InitialCanonical(n); } else { InitialOdd(n); }
  }

  // ---------- Runs ----------

  datatype Op = DoMalloc(n: nat) | DoFree(a: nat)

  /** Callers ask for at least one byte, and free only live blocks. */
  ghost predicate Allowed(h: Heap, op: Op) {
    match op
    case DoMalloc(n) => n >= 1 && AtMost2To(n, 62)
    case DoFree(a) => InUse(h.chunks, a)
  }

  /** A malloc that throws changes nothing. */
  ghost function Do(h: Heap, op: Op): Heap
    requires Valid(h) && Allowed(h, op)
  {
    match op
    case DoMalloc(n) =>
      ValidSound(h);
      (match Malloc(h, n) case None => h case Some(r) => r.0)
    case DoFree(a) => Free(h, a)
  }

  lemma DoValid(h: Heap, op: Op)
    requires Valid(h) && Allowed(h, op)
    ensures Valid(Do(h, op)) && Do(h, op).size == h.size
  {
    match op
    case DoMalloc(n) =>
      ValidSound(h);
      if Malloc(h, n).Some? {
        var (h', b) := Malloc(h, n).value;
        MallocEffect(h, n, h', b);
      }
    case DoFree(a) => FreeContract(h, a);
  }

  lemma DoCanonical(h: Heap, op: Op)
    requires Valid(h) && Allowed(h, op) && Canonical(h.chunks)
    ensures Canonical(Do(h, op).chunks)
  {
    match op
    case DoMalloc(n) =>
      ValidSound(h);
      if Malloc(h, n).Some? {
        var (h', b) := Malloc(h, n).value;
        MallocCanonical(h, n, h', b);
      }
    case DoFree(a) => FreeCanonical(h, a);
  }

  ghost predicate Run(h: Heap, ops: seq<Op>, h': Heap)
    decreases |ops|
  {
    if ops == [] then h' == h
    else Valid(h) && Allowed(h, ops[0]) && Run(Do(h, ops[0]), ops[1..], h')
  }

  lemma {:induction false} RunValid(h: Heap, ops: seq<Op>, h': Heap)
    requires Valid(h) && Run(h, ops, h')
    ensures Valid(h') && h'.size == h.size
    decreases |ops|
  {
    hide Valid, Do;
    if ops != [] {
      DoValid(h, ops[0]);
      RunValid(Do(h, ops[0]), ops[1..], h');
    }
  }

  lemma {:induction false} RunCanonical(h: Heap, ops: seq<Op>, h': Heap)
    requires Valid(h) && Canonical(h.chunks) && Run(h, ops, h')
    ensures Canonical(h'.chunks)
    decreases |ops|
  {
    hide Valid, Do, Canonical;
    if ops != [] {
      DoValid(h, ops[0]);
      DoCanonical(h, ops[0]);
      RunCanonical(Do(h, ops[0]), ops[1..], h');
    }
  }

  /** On an even-sized heap, two runs that leave the same live blocks leave the same chunk map, whatever their history. */
  lemma HistoryIndependent(n: nat, ops1: seq<Op>, h1: Heap, ops2: seq<Op>, h2: Heap)
    requires n >= 1 && AtMost2To(n, 63) && EvenOrOne(n)
    requires Run(InitialHeap(n), ops1, h1) && Run(InitialHeap(n), ops2, h2)
    requires Live(h1.chunks) == Live(h2.chunks)
    ensures h1.chunks == h2.chunks
  {
    InitialValid(n);
    InitialCanonical(n);
    RunValid(InitialHeap(n), ops1, h1);
    RunValid(InitialHeap(n), ops2, h2);
    RunCanonical(InitialHeap(n), ops1, h1);
    RunCanonical(InitialHeap(n), ops2, h2);
    LiveDetermines(h1.chunks, h2.chunks, n);
  }

  lemma FreeingAllRestores(n: nat, ops: seq<Op>, h: Heap)
    requires n >= 1 && AtMost2To(n, 63) && EvenOrOne(n)
    requires Run(InitialHeap(n), ops, h) && Live(h.chunks) == {}
    ensures h.chunks == InitialHeap(n).chunks
  {
    InitialValid(n);
    HistoryIndependent(n, ops, h, [], InitialHeap(n));
  }

  // ---------- Odd sizes: freeing everything does not restore the map ----------

  lemma {:induction false} MergeUpKeys(h: Heap, a: nat)
    requires a in h.chunks && IsPow2(h.chunks[a].size)
    ensures MergeUp(h, a).chunks.Keys <= h.chunks.Keys
    decreases |h.chunks|
  {
    if CanMerge(h.chunks, a) {
      MergeUpUnfold(h, a);
      MergeOnceKeys(h, a);
      MergeUpKeys(MergeOnce(h, a), Lower(h.chunks, a));
    }
  }

  lemma MergeOnceKeys(h: Heap, a: nat)
    requires a in h.chunks && IsPow2(h.chunks[a].size) && CanMerge(h.chunks, a)
    ensures MergeOnce(h, a).chunks.Keys == h.chunks.Keys - {Higher(h.chunks, a)}
  {
    BuddyAdjacent(h.chunks, a);
  }

  lemma SizeOne()
    ensures NextLargestPowerOf2(1) == 1
  {
    One();
    assert Pow2(0) == 1;
    NextLargestIsLeast(1);
  }

  lemma XorOne(a: nat)
    requires a % 2 == 0
    ensures Xor(a, 1) == a + 1
  {
    One();
    XorPow2(a, 1);
  }

  /** The first malloc(1) takes the one-byte chunk. */
  lemma OddFirst(h: Heap, p: nat)
    requires Sound(h) && OddTail(h, p)
    ensures Malloc(h, 1) == Some((Take(h, p), p))
  {
    SizeOne();
    MallocUnfold(h, 1);
    assert IsLowerBound(h.lists, 1, LowerBound(h.lists, 1));
    assert LowerBound(h.lists, 1) == 1;
  }

  /** A malloc(1) when only larger chunks are free, the last freed of two bytes: it splits that one. */
  predicate TwoNext(h: Heap, p: nat) {
    && (forall s :: s in h.lists ==> s >= 2) && 2 in h.lists && h.lists[2] != [] && h.lists[2][0] == p + 1
    && p + 1 in h.chunks && h.chunks[p + 1] == Chunk(false, 2)
  }

  lemma OddSecond(h: Heap, p: nat)
    requires Sound(h) && TwoNext(h, p)
    ensures p + 2 in SplitOnce(h, p + 1).chunks
    ensures Malloc(h, 1) == Some((Take(SplitOnce(h, p + 1), p + 2), p + 2))
  {
    hide NextLargestPowerOf2, SplitOnce;
    SizeOne();
    MallocUnfold(h, 1);
    assert IsLowerBound(h.lists, 1, LowerBound(h.lists, 1));
    assert LowerBound(h.lists, 1) == 2;
    SplitDownUnfold(h, p + 1, 1);
    SplitOnceChunks(h, p + 1);
  }

  lemma TakeLeavesTwo(h: Heap, p: nat)
    requires Valid(h) && OddTail(h, p)
    ensures TwoNext(Take(h, p), p)
  {
    forall s | s in h.lists ensures s >= 1 {
      var a := h.lists[s][0];
      assert a in h.lists[s] && h.chunks[a].size == s;
    }
  }

  /** With its buddy beyond the heap, the last byte does not merge. */
  lemma LastByteStays(h: Heap, a: nat)
    requires Valid(h) && a + 1 == h.size && a % 2 == 0 && a in h.chunks && h.chunks[a].size == 1
    ensures IsPow2(1) && Free(h, a).chunks == h.chunks[a := Chunk(false, 1)]
  {
    One();
    XorOne(a);
  }

  /** A freed byte at an even offset swallows the free byte above it. */
  lemma ByteMerges(h: Heap, p: nat)
    requires p % 2 == 0 && p in h.chunks && h.chunks[p].size == 1
    requires p + 1 in h.chunks && h.chunks[p + 1] == Chunk(false, 1)
    ensures IsPow2(1) && p + 1 !in Free(h, p).chunks
  {
    hide MergeUp, MergeOnce;
    One();
    XorOne(p);
    var h1 := Put(h, p);
    MergeUpUnfold(h1, p);
    MergeOnceKeys(h1, p);
    MergeUpKeys(MergeOnce(h1, p), p);
    assert p + 1 !in MergeOnce(h1, p).chunks.Keys;
    assert p + 1 !in MergeUp(h1, p).chunks.Keys;
  }

  lemma RunFirst(h: Heap, op: Op, ops: seq<Op>, h': Heap)
    requires Valid(h) && Allowed(h, op) && Run(Do(h, op), ops, h')
    ensures Run(h, [op] + ops, h')
  {
    hide Valid, Do, Allowed;
    assert ([op] + ops)[1..] == ops;
  }

  /** Two one-byte mallocs on an odd-sized heap. */
  lemma OddMallocs(h: Heap, p: nat) returns (h2: Heap)
    requires Valid(h) && OddTail(h, p) && Live(h.chunks) == {}
    ensures Valid(h2) && h2.size == h.size && Live(h2.chunks) == {Block(p, 1), Block(p + 2, 1)}
    ensures p + 1 in h2.chunks && h2.chunks[p + 1] == Chunk(false, 1)
    ensures forall ops, h' :: Run(h2, ops, h') ==> Run(h, [DoMalloc(1), DoMalloc(1)] + ops, h')
  {
    hide Valid, Malloc, Run, Listing, SplitOnce, NextLargestPowerOf2;
    ValidSound(h);
    SizeOne();
    assert Pow2(0) == 1 && AtMost2To(1, 62);
    var h1 := Take(h, p);
    OddFirst(h, p);
    MallocEffect(h, 1, h1, p);
    TakeLeavesTwo(h, p);
    ValidSound(h1);
    OddSecond(h1, p);
    SplitOnceChunks(h1, p + 1);
    h2 := Take(SplitOnce(h1, p + 1), p + 2);
    MallocEffect(h1, 1, h2, p + 2);
    forall ops, h' | Run(h2, ops, h') ensures Run(h, [DoMalloc(1), DoMalloc(1)] + ops, h') {
      RunFirst(h1, DoMalloc(1), ops, h');
      RunFirst(h, DoMalloc(1), [DoMalloc(1)] + ops, h');
      assert [DoMalloc(1)] + ([DoMalloc(1)] + ops) == [DoMalloc(1), DoMalloc(1)] + ops;
    }
  }

  /** On an odd-sized heap some run frees everything and does not restore the map. */
  lemma OddRun(n: nat)
    requires AtMost2To(n, 63) && n >= 3 && n % 2 == 1
    ensures exists ops, h ::
      Run(InitialHeap(n), ops, h) && Live(h.chunks) == {} && h.chunks != InitialHeap(n).chunks
  {
    hide Valid, Run, Free, InitialHeap, Listing, Aligned, AtMost2To;
    var h0, p := InitialHeap(n), n - 3;
    InitialValid(n);
    InitialOdd(n);
    var h2 := OddMallocs(h0, p);
    FreeContract(h2, p + 2);
    LastByteStays(h2, p + 2);
    var h3 := Free(h2, p + 2);
    FreeContract(h3, p);
    ByteMerges(h3, p);
    var h4 := Free(h3, p);
    EmptyRun(h4);
    RunFirst(h3, DoFree(p), [], h4);
    RunFirst(h2, DoFree(p + 2), [DoFree(p)] + [], h4);
  }

  lemma EmptyRun(h: Heap)
    ensures Run(h, [], h)
  {
  }

  /** Every run that frees everything restores the constructor's chunk map, exactly on heaps of even size or of size 1. */
  lemma RestoresIff(n: nat)
    requires n >= 1 && AtMost2To(n, 63)
    ensures EvenOrOne(n) <==>
      forall ops, h :: Run(InitialHeap(n), ops, h) && Live(h.chunks) == {} ==> h.chunks == InitialHeap(n).chunks
  {
    hide Run, InitialHeap;
    if EvenOrOne(n) {
      forall ops, h | Run(InitialHeap(n), ops, h) && Live(h.chunks) == {}
        ensures h.chunks == InitialHeap(n).chunks
      {
        FreeingAllRestores(n, ops, h);
      }
    } else {
      OddRun(n);
    }
  }
}
