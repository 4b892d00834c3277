/**
 Coalescing is canonical: on a heap whose size is even (or 1), after any sequence of
 mallocs and frees the chunk map is determined by the live blocks alone, so freeing
 everything restores the map the constructor built.
 */
module AllocatorCanonical {
  import opened Basics
  import opened Bits
  import opened Allocator
  import opened AllocatorProofs

  // ---------- Buddies ----------

  lemma NextQuotient(a: nat, p: nat)
    requires p >= 1
    ensures (a + p) / p == a / p + 1
  {
    DivMod(a + p, p, a / p + 1, a % p);
  }

  lemma XorBack(a: nat, p: nat)
    requires IsPow2(p)
    ensures Xor(Xor(a, p), p) == a
  {
    hide Xor, IsPow2;
    Positive(p);
    var b := Xor(a, p);
    XorPow2(a, p);
    XorPow2(b, p);
    if b == a + p { NextQuotient(a, p); } else { NextQuotient(b, p); }
  }

  lemma EvenQuotient(a: nat, p: nat)
    requires p >= 1
    ensures a % (2 * p) == 0 <==> a % p == 0 && (a / p) % 2 == 0
  {
    if a % (2 * p) == 0 {
      ExactDiv(a, 2 * p);
      var q := a / (2 * p);
      assert a == (2 * q) * p;
      MultipleOf(2 * q, p);
    }
    if a % p == 0 && (a / p) % 2 == 0 {
      ExactDiv(a, p);
      var q := a / p / 2;
      assert a == q * (2 * p);
      MultipleOf(q, 2 * p);
    }
  }

  /** A chunk aligned to twice its size is the lower of its pair. */
  lemma BuddyAbove(a: nat, p: nat)
    requires IsPow2(p) && p >= 1 && a % (2 * p) == 0
    ensures Xor(a, p) == a + p
  {
    hide Xor, IsPow2;
    XorPow2(a, p);
    EvenQuotient(a, p);
  }

  /** The lower of two aligned buddies is aligned to twice their size. */
  lemma LowerAligned(a: nat, p: nat)
    requires IsPow2(p) && p >= 1 && a % p == 0
    ensures (if a < Xor(a, p) then a else Xor(a, p)) % (2 * p) == 0
  {
    hide Xor, IsPow2;
    var b := Xor(a, p);
    XorPow2(a, p);
    EvenQuotient(a, p);
    EvenQuotient(b, p);
    if b < a { NextQuotient(b, p); SameRemainder(b, p); }
  }

  lemma SameRemainder(b: nat, p: nat)
    requires p >= 1
    ensures (b + p) % p == b % p
  {
    DivMod(b + p, p, b / p + 1, b % p);
  }

  // ---------- Canonical chunk maps ----------

  /** Every chunk starts at a multiple of its size. */
  predicate Aligned(chunks: Chunks) {
    forall a :: a in chunks ==> chunks[a].size >= 1 && a % chunks[a].size == 0
  }

  /** c and d are free buddies. */
  predicate Pair(chunks: Chunks, c: nat, d: nat) {
    && c in chunks && d in chunks && !chunks[c].inUse && !chunks[d].inUse
    && chunks[c].size == chunks[d].size && d == Xor(c, chunks[c].size)
  }

  ghost predicate NoPairs(chunks: Chunks) {
    forall c, d :: !Pair(chunks, c, d)
  }

  /** The only free buddies left to merge are those of chunk a. */
  ghost predicate NoPairsBut(chunks: Chunks, a: nat) {
    forall c, d :: Pair(chunks, c, d) ==> c == a || d == a
  }

  ghost predicate Canonical(chunks: Chunks) {
    Aligned(chunks) && NoPairs(chunks)
  }

  lemma PairSymmetric(chunks: Chunks, c: nat, d: nat)
    requires Pow2Sizes(chunks) && Pair(chunks, c, d)
    ensures Pair(chunks, d, c)
  {
    XorBack(c, chunks[c].size);
  }

  // ---------- Freeing coalesces completely ----------

  lemma MergeAligned(chunks: Chunks, a: nat)
    requires Aligned(chunks) && a in chunks && IsPow2(chunks[a].size)
    ensures Aligned(MergeChunks(chunks, Lower(chunks, a), chunks[a].size))
  {
    LowerAligned(a, chunks[a].size);
  }

  lemma MergeNoPairsBut(chunks: Chunks, lo: nat, s: nat, a: nat)
    requires NoPairsBut(chunks, a) && (a == lo || a == lo + s) && s >= 1
    ensures NoPairsBut(MergeChunks(chunks, lo, s), lo)
  {
    var chunks' := MergeChunks(chunks, lo, s);
    forall c, d | Pair(chunks', c, d) ensures c == lo || d == lo {
      assert c == lo || d == lo || Pair(chunks, c, d);
    }
  }

  lemma MergedEnough(chunks: Chunks, a: nat)
    requires Pow2Sizes(chunks) && a in chunks && NoPairsBut(chunks, a) && !CanMerge(chunks, a)
    ensures NoPairs(chunks)
  {
    forall c, d ensures !Pair(chunks, c, d) {
      if Pair(chunks, c, d) { PairSymmetric(chunks, c, d); }
    }
  }

  lemma {:induction false} MergeUpCanonical(h: Heap, a: nat)
    requires Valid(h) && a in h.chunks && !h.chunks[a].inUse
    requires Aligned(h.chunks) && NoPairsBut(h.chunks, a)
    ensures Canonical(MergeUp(h, a).chunks)
    decreases |h.chunks|
  {
    if CanMerge(h.chunks, a) {
      var lo, s := Lower(h.chunks, a), h.chunks[a].size;
      BuddiesFree(h.chunks, a);
      MergeUpUnfold(h, a);
      MergeOnceValid(h, a);
      MergeAligned(h.chunks, a);
      MergeNoPairsBut(h.chunks, lo, s, a);
      MergeUpCanonical(MergeOnce(h, a), lo);
    } else {
      MergedEnough(h.chunks, a);
    }
  }

  lemma PutNoPairsBut(chunks: Chunks, a: nat, s: nat)
    requires NoPairs(chunks)
    ensures NoPairsBut(chunks[a := Chunk(false, s)], a)
  {
    var chunks' := chunks[a := Chunk(false, s)];
    forall c, d | Pair(chunks', c, d) ensures c == a || d == a {
      assert c == a || d == a || Pair(chunks, c, d);
    }
  }

  lemma FreeCanonical(h: Heap, a: nat)
    requires Valid(h) && InUse(h.chunks, a) && Canonical(h.chunks)
    ensures IsPow2(h.chunks[a].size) && Canonical(Free(h, a).chunks)
  {
    PutValid(h, a);
    PutNoPairsBut(h.chunks, a, h.chunks[a].size);
    assert Put(h, a).chunks == h.chunks[a := Chunk(false, h.chunks[a].size)];
    MergeUpCanonical(Put(h, a), a);
  }

  // ---------- Splitting leaves nothing to merge ----------

  lemma SplitAligned(chunks: Chunks, a: nat, half: nat)
    requires Aligned(chunks) && a in chunks && chunks[a].size == 2 * half && half >= 1
    ensures Aligned(SplitChunks(chunks, a, half))
  {
    HalfAligned(a, half);
  }

  lemma HalfAligned(a: nat, half: nat)
    requires half >= 1 && a % (2 * half) == 0
    ensures a % half == 0 && (a + half) % half == 0
  {
    ExactDiv(a, 2 * half);
    var q := a / (2 * half);
    assert a == (2 * q) * half;
    MultipleOf(2 * q, half);
    MultipleOf(2 * q + 1, half);
    assert a + half == (2 * q + 1) * half;
  }

  lemma SplitNoPairsBut(chunks: Chunks, a: nat, half: nat)
    requires Pow2Sizes(chunks) && Aligned(chunks) && NoPairsBut(chunks, a)
    requires a in chunks && chunks[a].size == 2 * half && half >= 1 && IsPow2(half)
    ensures NoPairsBut(SplitChunks(chunks, a, half), a + half)
  {
    var chunks' := SplitChunks(chunks, a, half);
    BuddyAbove(a, half);
    forall c, d | Pair(chunks', c, d) ensures c == a + half || d == a + half {
      XorBack(c, chunks'[c].size);
      assert c in {a, a + half} || d in {a, a + half} || Pair(chunks, c, d);
    }
  }

  lemma SplitPow2Sizes(chunks: Chunks, a: nat, half: nat)
    requires Pow2Sizes(chunks) && IsPow2(half)
    ensures Pow2Sizes(SplitChunks(chunks, a, half))
  {
  }

  lemma ValidSizes(chunks: Chunks, a: nat)
    requires Pow2Sizes(chunks) && a in chunks
    ensures IsPow2(chunks[a].size)
  {
  }

  lemma {:induction false} SplitDownCanonical(h: Heap, a: nat, alloc: nat)
    requires Pow2Sizes(h.chunks) && a in h.chunks && IsPow2(alloc) && alloc <= h.chunks[a].size
    requires Aligned(h.chunks) && NoPairsBut(h.chunks, a)
    ensures var (h', b) := SplitDown(h, a, alloc);
      Aligned(h'.chunks) && NoPairsBut(h'.chunks, b)
    decreases h.chunks[a].size
  {
    hide SplitOnce, Aligned, NoPairsBut, Pow2Sizes, IsPow2;
    ValidSizes(h.chunks, a);
    Positive(alloc);
    if h.chunks[a].size > alloc {
      var half := h.chunks[a].size / 2;
      Gap(alloc, h.chunks[a].size);
      Half(h.chunks[a].size);
      SplitOnceChunks(h, a);
      SplitDownUnfold(h, a, alloc);
      SplitAligned(h.chunks, a, half);
      SplitPow2Sizes(h.chunks, a, half);
      SplitNoPairsBut(h.chunks, a, half);
      SplitDownCanonical(SplitOnce(h, a), a + half, alloc);
    }
  }

  lemma TakeNoPairs(chunks: Chunks, b: nat, s: nat)
    requires NoPairsBut(chunks, b)
    ensures NoPairs(chunks[b := Chunk(true, s)])
  {
    var chunks' := chunks[b := Chunk(true, s)];
    forall c, d ensures !Pair(chunks', c, d) {
      assert Pair(chunks', c, d) ==> c != b && d != b && Pair(chunks, c, d);
    }
  }

  lemma MallocCanonical(h: Heap, n: nat, h': Heap, b: nat)
    requires Valid(h) && n >= 1 && AtMost2To(n, 62) && Canonical(h.chunks)
    requires Sound(h) && Malloc(h, n) == Some((h', b))
    ensures Canonical(h'.chunks)
  {
    var len := NextLargestPowerOf2(n);
    NextLargestIsLeast(n);
    MallocUnfold(h, n);
    ChosenBestFits(h, len);
    var h1 := SplitDown(h, Chosen(h, len), len).0;
    SplitDownCanonical(h, Chosen(h, len), len);
    TakeNoPairs(h1.chunks, b, h1.chunks[b].size);
    assert h'.chunks == h1.chunks[b := Chunk(true, h1.chunks[b].size)];
  }

  // ---------- The live blocks determine the chunk map ----------

  /** Every chunk that starts in [p, p + q) is free. */
  predicate AllFreeIn(chunks: Chunks, p: nat, q: nat) {
    forall c :: c in chunks && p <= c < p + q ==> !chunks[c].inUse
  }

  /** An aligned power-of-two block cut into several free chunks contains two free buddies. */
  lemma {:induction false} FindPair(chunks: Chunks, n: nat, p: nat, q: nat)
    requires Tiled(chunks, n) && Pow2Sizes(chunks) && Aligned(chunks)
    requires IsPow2(q) && q >= 1 && p % q == 0 && p + q <= n
    requires p in chunks && chunks[p].size < q && AllFreeIn(chunks, p, q)
    ensures !NoPairs(chunks)
    decreases q
  {
    var half := q / 2;
    Half(q);
    HalfAligned(p, half);
    SizesFit(chunks, p, q);
    if chunks[p].size < half {
      FindPair(chunks, n, p, half);
    } else {
      var mid := p + half;
      assert Follows(chunks, n, p);
      SecondHalfFits(chunks, p, half);
      if chunks[mid].size < half {
        FindPair(chunks, n, mid, half);
      } else {
        BuddyAbove(p, half);
        assert Pair(chunks, p, mid);
      }
    }
  }

  /** A chunk smaller than q is at most half of it. */
  lemma SizesFit(chunks: Chunks, p: nat, q: nat)
    requires Pow2Sizes(chunks) && p in chunks && IsPow2(q) && chunks[p].size < q
    ensures 2 * chunks[p].size <= q
  {
    Gap(chunks[p].size, q);
  }

  /** A chunk that starts halfway into an aligned block does not reach beyond it. */
  lemma SecondHalfFits(chunks: Chunks, p: nat, half: nat)
    requires Pow2Sizes(chunks) && Aligned(chunks) && IsPow2(half) && half >= 1
    requires p % (2 * half) == 0 && p + half in chunks
    ensures chunks[p + half].size <= half
  {
    var s := chunks[p + half].size;
    if s > half {
      Gap(half, s);
      Double(half);
      Coarser(p + half, 2 * half, s);
      ExactDiv(p, 2 * half);
      DivMod(p + half, 2 * half, p / (2 * half), half);
    }
  }

  /** The maps agree on all chunks below p. */
  ghost predicate AgreeBelow(c1: Chunks, c2: Chunks, p: nat) {
    forall c :: c < p ==> (c in c1 <==> c in c2) && (c in c1 ==> c1[c] == c2[c])
  }

  ghost predicate CanonicalTiling(chunks: Chunks, n: nat) {
    Tiled(chunks, n) && Pow2Sizes(chunks) && Canonical(chunks)
  }

  /** A free chunk of one map is not smaller than the free chunk that the other has at the same place. */
  lemma NotSmaller(c1: Chunks, c2: Chunks, n: nat, p: nat)
    requires CanonicalTiling(c1, n) && CanonicalTiling(c2, n) && Live(c1) == Live(c2)
    requires p in c1 && p in c2 && !c1[p].inUse && !c2[p].inUse
    ensures c1[p].size >= c2[p].size
  {
    if c1[p].size < c2[p].size {
      forall c | c in c1 && p <= c < p + c2[p].size ensures !c1[c].inUse {
        LiveBlock(c1, Block(c, c1[c].size));
        LiveBlock(c2, Block(c, c1[c].size));
      }
      FindPair(c1, n, p, c2[p].size);
    }
  }

  lemma SameChunk(c1: Chunks, c2: Chunks, n: nat, p: nat)
    requires CanonicalTiling(c1, n) && CanonicalTiling(c2, n) && Live(c1) == Live(c2)
    requires p in c1 && p in c2
    ensures c1[p] == c2[p]
  {
    LiveBlock(c1, Block(p, c1[p].size));
    LiveBlock(c2, Block(p, c1[p].size));
    LiveBlock(c1, Block(p, c2[p].size));
    LiveBlock(c2, Block(p, c2[p].size));
    if !c1[p].inUse {
      NotSmaller(c1, c2, n, p);
      NotSmaller(c2, c1, n, p);
    }
  }

  /** Agreement reaches past a chunk that both maps have. */
  lemma AgreeNext(c1: Chunks, c2: Chunks, n: nat, p: nat)
    requires Tiled(c1, n) && Tiled(c2, n) && AgreeBelow(c1, c2, p) && p in c1 && p in c2 && c1[p] == c2[p]
    ensures var q := p + c1[p].size;
      p < q <= n && AgreeBelow(c1, c2, q) && (q == n || (q in c1 && q in c2))
  {
    assert Follows(c1, n, p) && Follows(c2, n, p);
  }

  lemma {:induction false} AgreeFrom(c1: Chunks, c2: Chunks, n: nat, p: nat)
    requires CanonicalTiling(c1, n) && CanonicalTiling(c2, n) && Live(c1) == Live(c2)
    requires AgreeBelow(c1, c2, p) && p <= n && (p == n || (p in c1 && p in c2))
    ensures AgreeBelow(c1, c2, n)
    decreases n - p
  {
    hide Tiled, AgreeBelow, Live, Pow2Sizes, Canonical;
    if p < n {
      SameChunk(c1, c2, n, p);
      AgreeNext(c1, c2, n, p);
      AgreeFrom(c1, c2, n, p + c1[p].size);
    }
  }

  /** Two canonical chunk maps of the same heap with the same live blocks are equal. */
  lemma LiveDetermines(c1: Chunks, c2: Chunks, n: nat)
    requires CanonicalTiling(c1, n) && CanonicalTiling(c2, n) && Live(c1) == Live(c2)
    ensures c1 == c2
  {
    AgreeFrom(c1, c2, n, 0);
    assert forall c :: c in c1 || c in c2 ==> c < n;
  }

  /** Whatever chunks a canonical map had before block b was taken, it has again once b is freed. */
  lemma FreeRestores(h: Heap, b: nat, chunks: Chunks)
    requires Valid(h) && Canonical(h.chunks) && CanonicalTiling(chunks, h.size)
    requires InUse(h.chunks, b) && Live(h.chunks) - {Block(b, h.chunks[b].size)} == Live(chunks)
    ensures IsPow2(h.chunks[b].size) && Free(h, b).chunks == chunks
  {
    FreeContract(h, b);
    FreeCanonical(h, b);
    LiveDetermines(Free(h, b).chunks, chunks, h.size);
  }

  /** Freeing what malloc has just returned undoes the malloc: every chunk is as it was. */
  lemma MallocFreeRestores(h: Heap, n: nat, h': Heap, b: nat)
    requires Valid(h) && Canonical(h.chunks) && n >= 1 && AtMost2To(n, 62)
    requires Sound(h) && Malloc(h, n) == Some((h', b))
    ensures b in h'.chunks && IsPow2(h'.chunks[b].size) && Free(h', b).chunks == h.chunks
  {
    MallocEffect(h, n, h', b);
    var k := Block(b, NextLargestPowerOf2(n));
    LiveBlock(h.chunks, k);
    LiveBlock(h'.chunks, k);
    assert Live(h'.chunks) - {k} == Live(h.chunks);
    MallocCanonical(h, n, h', b);
    FreeRestores(h', b, h.chunks);
  }
}
