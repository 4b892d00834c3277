/**
 What the buddy allocator promises: the heap invariant, the contracts of malloc
 and free in terms of the live blocks, and canonical coalescing.
 */
module AllocatorProofs {
  import opened Basics
  import opened Bits
  import opened Allocator

  // ---------- The heap invariant ----------

  /** Chunk a ends where the next one starts, or at the end of the heap. */
  predicate Follows(chunks: Chunks, n: nat, a: nat)
    requires a in chunks
  {
    a + chunks[a].size == n || a + chunks[a].size in chunks
  }

  /** The chunks tile [0, n): they start at 0, follow one another up to n, and do not overlap. */
  predicate Tiled(chunks: Chunks, n: nat) {
    0 in chunks && Bounded(chunks, n) && NoGap(chunks, n) && NoOverlap(chunks)
  }

  predicate Bounded(chunks: Chunks, n: nat) {
    forall a :: a in chunks ==> chunks[a].size >= 1 && a + chunks[a].size <= n
  }

  predicate NoGap(chunks: Chunks, n: nat) {
    forall a {:trigger Follows(chunks, n, a)} :: a in chunks ==> Follows(chunks, n, a)
  }

  predicate NoOverlap(chunks: Chunks) {
    forall a, b :: a in chunks && b in chunks && a < b ==> a + chunks[a].size <= b
  }

  ghost predicate Pow2Sizes(chunks: Chunks) {
    forall a :: a in chunks ==> IsPow2(chunks[a].size)
  }

  function FreeSet(chunks: Chunks): set<nat> {
    set a | a in chunks && !chunks[a].inUse
  }

  /** The lists hold exactly the chunks in `free`, each once and under its size; no list is empty. */
  predicate Listing(lists: FreeLists, chunks: Chunks, free: set<nat>) {
    && (forall s :: s in lists ==> lists[s] != [] && NoDup(lists[s]))
    && (forall s, a :: s in lists && a in lists[s] ==> a in free && a in chunks && chunks[a].size == s)
    && (forall a :: a in free ==> a in chunks && chunks[a].size in lists && a in lists[chunks[a].size])
  }

  ghost predicate Valid(h: Heap) {
    Tiled(h.chunks, h.size) && Pow2Sizes(h.chunks) && Listing(h.lists, h.chunks, FreeSet(h.chunks))
  }

  datatype Block = Block(offset: nat, length: nat)

  predicate InUse(chunks: Chunks, a: nat) {
    a in chunks && chunks[a].inUse
  }

  /** The allocated blocks. */
  function Live(chunks: Chunks): set<Block> {
    set a | a in chunks && chunks[a].inUse :: Block(a, chunks[a].size)
  }

  lemma LiveBlock(chunks: Chunks, k: Block)
    ensures k in Live(chunks) <==> InUse(chunks, k.offset) && chunks[k.offset].size == k.length
  {
  }

  /** Maps with the same used chunks have the same live blocks. */
  lemma SameLive(c1: Chunks, c2: Chunks)
    requires forall a :: InUse(c1, a) ==> InUse(c2, a) && c2[a] == c1[a]
    requires forall a :: InUse(c2, a) ==> InUse(c1, a) && c1[a] == c2[a]
    ensures Live(c1) == Live(c2)
  {
    forall k ensures k in Live(c1) <==> k in Live(c2) {
      LiveBlock(c1, k);
      LiveBlock(c2, k);
    }
  }

  lemma LiveAdded(c1: Chunks, c2: Chunks, b: nat, n: nat)
    requires !InUse(c1, b) && c2 == c1[b := Chunk(true, n)]
    ensures Live(c2) == Live(c1) + {Block(b, n)} && Block(b, n) !in Live(c1)
  {
    forall k ensures k in Live(c2) <==> k in Live(c1) || k == Block(b, n) {
      LiveBlock(c1, k);
      LiveBlock(c2, k);
    }
  }

  // ---------- Free-list operations ----------

  lemma {:induction false} WithoutMembers(xs: seq<nat>, a: nat)
    requires NoDup(xs)
    ensures forall x :: x in Without(xs, a) <==> x in xs && x != a
    ensures NoDup(Without(xs, a))
  {
    if xs != [] {
      assert NoDup(xs[1..]) by {
        forall i, j | 0 <= i < j < |xs[1..]| ensures xs[1..][i] != xs[1..][j] {
          assert xs[i + 1] != xs[j + 1];
        }
      }
      assert xs == [xs[0]] + xs[1..];
      assert xs[0] !in xs[1..];
      if xs[0] != a {
        WithoutMembers(xs[1..], a);
        NoDupCons(xs[0], Without(xs[1..], a));
      }
    }
  }

  lemma NoDupCons(x: nat, xs: seq<nat>)
    requires NoDup(xs) && x !in xs
    ensures NoDup([x] + xs)
  {
  }

  lemma TakeListing(lists: FreeLists, chunks: Chunks, free: set<nat>, a: nat)
    requires Listing(lists, chunks, free) && a in free
    ensures Listing(Unlisted(lists, chunks[a].size, a), chunks, free - {a})
  {
    var s := chunks[a].size;
    var lists' := Unlisted(lists, s, a);
    WithoutMembers(lists[s], a);
    forall b | b in free - {a} ensures chunks[b].size in lists' && b in lists'[chunks[b].size] {
      if chunks[b].size == s { assert b in Without(lists[s], a); }
    }
  }

  lemma PutListing(lists: FreeLists, chunks: Chunks, free: set<nat>, a: nat)
    requires Listing(lists, chunks, free) && a !in free && a in chunks
    ensures Listing(Relisted(lists, chunks[a].size, a), chunks, free + {a})
  {
    var s := chunks[a].size;
    var lists' := Relisted(lists, s, a);
    assert a !in ListOf(lists, s);
    NoDupCons(a, ListOf(lists, s));
    assert lists'[s][0] == a;
    forall b | b in free ensures chunks[b].size in lists' && b in lists'[chunks[b].size] {
      if chunks[b].size == s { assert b in lists[s] && b in [a] + lists[s]; }
    }
    forall t, b | t in lists' && b in lists'[t] ensures b in free + {a} && b in chunks && chunks[b].size == t {
      if t == s && b != a { assert b in ListOf(lists, s); }
    }
  }

  /** The lists do not depend on chunks they do not hold. */
  lemma ListingFrame(lists: FreeLists, chunks: Chunks, chunks': Chunks, free: set<nat>)
    requires Listing(lists, chunks, free)
    requires forall a :: a in free ==> a in chunks' && chunks'[a].size == chunks[a].size
    ensures Listing(lists, chunks', free)
  {
  }

  // ---------- Splitting ----------

  /** Chunk a replaced by two free halves. */
  function SplitChunks(chunks: Chunks, a: nat, half: nat): Chunks {
    chunks[a := Chunk(false, half)][a + half := Chunk(false, half)]
  }

  lemma SplitNoGap(chunks: Chunks, n: nat, a: nat, half: nat)
    requires NoGap(chunks, n) && a in chunks && half >= 1 && chunks[a].size == 2 * half
    ensures NoGap(SplitChunks(chunks, a, half), n)
  {
    var chunks' := SplitChunks(chunks, a, half);
    assert Follows(chunks, n, a);
    forall b | b in chunks' ensures Follows(chunks', n, b) {
      if b != a && b != a + half { assert Follows(chunks, n, b); }
    }
  }

  lemma SplitNoOverlap(chunks: Chunks, n: nat, a: nat, half: nat)
    requires NoOverlap(chunks) && Bounded(chunks, n) && a in chunks && half >= 1 && chunks[a].size == 2 * half
    ensures NoOverlap(SplitChunks(chunks, a, half))
    ensures a + half !in chunks
  {
    assert a + half !in chunks;
  }

  lemma SplitBounded(chunks: Chunks, n: nat, a: nat, half: nat)
    requires Bounded(chunks, n) && a in chunks && half >= 1 && chunks[a].size == 2 * half
    ensures Bounded(SplitChunks(chunks, a, half), n)
  {
  }

  lemma SplitTiled(chunks: Chunks, n: nat, a: nat, half: nat)
    requires Tiled(chunks, n) && a in chunks && half >= 1 && chunks[a].size == 2 * half
    ensures Tiled(SplitChunks(chunks, a, half), n)
    ensures a + half !in chunks
  {
    SplitNoGap(chunks, n, a, half);
    SplitNoOverlap(chunks, n, a, half);
    SplitBounded(chunks, n, a, half);
  }

  lemma SplitOnceChunks(h: Heap, a: nat)
    requires a in h.chunks && h.chunks[a].size / 2 >= 1
    ensures SplitOnce(h, a).chunks == SplitChunks(h.chunks, a, h.chunks[a].size / 2)
  {
  }

  /** Changing the size of a listed chunk and moving it to the list of its new size. */
  lemma RelistListing(h: Heap, a: nat, s: nat)
    requires Listing(h.lists, h.chunks, FreeSet(h.chunks)) && a in h.chunks && !h.chunks[a].inUse
    ensures var h' := Put(Resize(Take(h, a), a, s), a);
      Listing(h'.lists, h'.chunks, FreeSet(h'.chunks)) && h'.chunks == h.chunks[a := Chunk(false, s)]
  {
    var free := FreeSet(h.chunks);
    var h1 := Take(h, a);
    TakeListing(h.lists, h.chunks, free, a);
    var h2 := Resize(h1, a, s);
    ListingFrame(h1.lists, h.chunks, h2.chunks, free - {a});
    var h3 := Put(h2, a);
    PutListing(h2.lists, h2.chunks, free - {a}, a);
    ListingFrame(h3.lists, h2.chunks, h3.chunks, free - {a} + {a});
    assert FreeSet(h3.chunks) == free - {a} + {a};
  }

  /** Adding a new free chunk to the map and to its list. */
  lemma InsertListing(h: Heap, b: nat, s: nat)
    requires Listing(h.lists, h.chunks, FreeSet(h.chunks)) && b !in h.chunks
    ensures var h' := Put(h.(chunks := h.chunks[b := Chunk(false, s)]), b);
      Listing(h'.lists, h'.chunks, FreeSet(h'.chunks)) && h'.chunks == h.chunks[b := Chunk(false, s)]
  {
    var free := FreeSet(h.chunks);
    var h1 := h.(chunks := h.chunks[b := Chunk(false, s)]);
    ListingFrame(h.lists, h.chunks, h1.chunks, free);
    PutListing(h1.lists, h1.chunks, free, b);
    assert Put(h1, b).chunks == h1.chunks;
    assert FreeSet(h1.chunks) == free + {b};
  }

  lemma SplitOnceListing(h: Heap, a: nat)
    requires Listing(h.lists, h.chunks, FreeSet(h.chunks)) && a in h.chunks && !h.chunks[a].inUse
    requires h.chunks[a].size / 2 >= 1 && a + h.chunks[a].size / 2 !in h.chunks
    ensures Listing(SplitOnce(h, a).lists, SplitOnce(h, a).chunks, FreeSet(SplitOnce(h, a).chunks))
  {
    var half := h.chunks[a].size / 2;
    var h1 := Put(Resize(Take(h, a), a, half), a);
    RelistListing(h, a, half);
    SplitOnceInserts(h, a);
    hide Listing, SplitOnce, Take, Put, Resize, FreeSet;
    InsertListing(h1, a + half, half);
  }

  lemma SplitOnceInserts(h: Heap, a: nat)
    requires a in h.chunks
    ensures var half := h.chunks[a].size / 2;
      var h1 := Put(Resize(Take(h, a), a, half), a);
      SplitOnce(h, a) == Put(h1.(chunks := h1.chunks[a + half := Chunk(false, half)]), a + half)
  {
  }

  lemma SplitOnceValid(h: Heap, a: nat)
    requires Valid(h) && a in h.chunks && !h.chunks[a].inUse && h.chunks[a].size > 1
    ensures var half := h.chunks[a].size / 2;
      && half >= 1 && h.chunks[a].size == 2 * half && a + half !in h.chunks
      && Valid(SplitOnce(h, a)) && SplitOnce(h, a).chunks == SplitChunks(h.chunks, a, half)
    ensures Live(SplitOnce(h, a).chunks) == Live(h.chunks)
  {
    var half := h.chunks[a].size / 2;
    Half(h.chunks[a].size);
    SplitTiled(h.chunks, h.size, a, half);
    SplitOnceChunks(h, a);
    SplitOnceListing(h, a);
    SplitLive(h.chunks, a, half);
  }

  lemma SplitOnceSize(h: Heap, a: nat)
    requires a in h.chunks
    ensures SplitOnce(h, a).size == h.size
  {
  }

  lemma SplitLive(chunks: Chunks, a: nat, half: nat)
    requires a in chunks && !chunks[a].inUse && a + half !in chunks
    ensures Live(SplitChunks(chunks, a, half)) == Live(chunks)
  {
    SameLive(chunks, SplitChunks(chunks, a, half));
  }

  /** Every chunk of the old map but `a` is still there, unchanged. */
  predicate Keeps(chunks: Chunks, chunks': Chunks, a: nat) {
    forall c :: c in chunks && c != a ==> c in chunks' && chunks'[c] == chunks[c]
  }

  lemma SplitDownUnfold(h: Heap, a: nat, alloc: nat)
    requires a in h.chunks && h.chunks[a].size > alloc
    ensures SplitDown(h, a, alloc) == SplitDown(SplitOnce(h, a), a + h.chunks[a].size / 2, alloc)
  {
    hide SplitOnce;
  }

  lemma {:induction false} SplitDownStaysValid(h: Heap, a: nat, alloc: nat)
    requires Valid(h) && a in h.chunks && !h.chunks[a].inUse && IsPow2(h.chunks[a].size)
    requires IsPow2(alloc) && alloc <= h.chunks[a].size
    ensures Valid(SplitDown(h, a, alloc).0) && SplitDown(h, a, alloc).0.size == h.size
    ensures Live(SplitDown(h, a, alloc).0.chunks) == Live(h.chunks)
    decreases h.chunks[a].size
  {
    hide Valid, Live, SplitOnce;
    if h.chunks[a].size > alloc {
      Gap(alloc, h.chunks[a].size);
      SplitOnceSize(h, a);
      SplitOnceValid(h, a);
      Half(h.chunks[a].size);
      SplitDownUnfold(h, a, alloc);
      SplitDownStaysValid(SplitOnce(h, a), a + h.chunks[a].size / 2, alloc);
    }
  }

  lemma {:induction false} SplitDownReaches(h: Heap, a: nat, alloc: nat)
    requires a in h.chunks && !h.chunks[a].inUse && IsPow2(h.chunks[a].size)
    requires IsPow2(alloc) && alloc <= h.chunks[a].size
    ensures var (h', b) := SplitDown(h, a, alloc);
      h'.chunks[b] == Chunk(false, alloc) && a <= b && b + alloc <= a + h.chunks[a].size
    decreases h.chunks[a].size
  {
    if h.chunks[a].size > alloc {
      var half := h.chunks[a].size / 2;
      Gap(alloc, h.chunks[a].size);
      Half(h.chunks[a].size);
      SplitOnceChunks(h, a);
      SplitDownUnfold(h, a, alloc);
      hide SplitOnce, SplitDown, IsPow2;
      SplitDownReaches(SplitOnce(h, a), a + half, alloc);
    }
  }

  lemma KeepsSelf(chunks: Chunks, a: nat)
    ensures Keeps(chunks, chunks, a)
  {
  }

  lemma {:induction false} SplitDownKeeps(h: Heap, a: nat, alloc: nat)
    requires NoOverlap(h.chunks) && Bounded(h.chunks, h.size) && a in h.chunks && IsPow2(h.chunks[a].size)
    requires IsPow2(alloc) && alloc <= h.chunks[a].size
    ensures Keeps(h.chunks, SplitDown(h, a, alloc).0.chunks, a)
    decreases h.chunks[a].size
  {
    hide SplitOnce, IsPow2, NoOverlap, Bounded, Keeps;
    Positive(alloc);
    if h.chunks[a].size > alloc {
      var half := h.chunks[a].size / 2;
      Gap(alloc, h.chunks[a].size);
      Half(h.chunks[a].size);
      SplitNoOverlap(h.chunks, h.size, a, half);
      SplitBounded(h.chunks, h.size, a, half);
      SplitOnceChunks(h, a);
      SplitOnceSize(h, a);
      SplitDownUnfold(h, a, alloc);
      SplitDownKeeps(SplitOnce(h, a), a + half, alloc);
      KeepsTrans(h.chunks, a, half, SplitDown(SplitOnce(h, a), a + half, alloc).0.chunks);
    } else {
      KeepsSelf(h.chunks, a);
    }
  }

  lemma KeepsTrans(chunks: Chunks, a: nat, half: nat, chunks': Chunks)
    requires a + half !in chunks && Keeps(SplitChunks(chunks, a, half), chunks', a + half)
    ensures Keeps(chunks, chunks', a)
  {
    var mid := SplitChunks(chunks, a, half);
    forall c | c in chunks && c != a ensures c in chunks' && chunks'[c] == chunks[c] {
      assert c in mid && mid[c] == chunks[c];
    }
  }

  /** Splitting reaches a free chunk of the requested size inside chunk a, and changes no other chunk. */
  lemma SplitDownValid(h: Heap, a: nat, alloc: nat)
    requires Valid(h) && a in h.chunks && !h.chunks[a].inUse
    requires IsPow2(alloc) && alloc <= h.chunks[a].size
    ensures var (h', b) := SplitDown(h, a, alloc);
      && Valid(h') && h'.size == h.size && Live(h'.chunks) == Live(h.chunks)
      && h'.chunks[b] == Chunk(false, alloc) && a <= b && b + alloc <= a + h.chunks[a].size
      && Keeps(h.chunks, h'.chunks, a)
  {
    SplitDownStaysValid(h, a, alloc);
    SplitDownReaches(h, a, alloc);
    SplitDownKeeps(h, a, alloc);
  }

  // ---------- Malloc ----------

  lemma TakeValid(h: Heap, a: nat)
    requires Valid(h) && a in h.chunks && !h.chunks[a].inUse
    ensures Valid(Take(h, a)) && Live(Take(h, a).chunks) == Live(h.chunks) + {Block(a, h.chunks[a].size)}
  {
    var h' := Take(h, a);
    var free := FreeSet(h.chunks);
    TakeListing(h.lists, h.chunks, free, a);
    ListingFrame(h'.lists, h.chunks, h'.chunks, free - {a});
    assert FreeSet(h'.chunks) == free - {a};
    MarkTiled(h.chunks, h.size, a, h'.chunks[a]);
    LiveAdded(h.chunks, h'.chunks, a, h.chunks[a].size);
  }

  lemma MarkTiled(chunks: Chunks, n: nat, a: nat, c: Chunk)
    requires Tiled(chunks, n) && a in chunks && c.size == chunks[a].size
    ensures Tiled(chunks[a := c], n)
  {
    var chunks' := chunks[a := c];
    assert Bounded(chunks', n);
    assert NoOverlap(chunks');
    forall b | b in chunks' ensures Follows(chunks', n, b) {
      assert Follows(chunks, n, b);
    }
  }

  lemma ValidPow2(h: Heap, a: nat)
    requires Valid(h) && a in h.chunks
    ensures IsPow2(h.chunks[a].size)
  {
  }

  lemma ValidSound(h: Heap)
    requires Valid(h)
    ensures Sound(h)
  {
    forall s | s in h.lists ensures h.lists[s] != [] && h.lists[s][0] in h.chunks {
      assert h.lists[s][0] in h.lists[s];
    }
  }

  /** Some free chunk has at least k bytes exactly when some free list does. */
  lemma FitsIff(h: Heap, k: nat)
    requires Valid(h)
    ensures NothingFits(h.lists, k) <==> forall a :: a in h.chunks && !h.chunks[a].inUse ==> h.chunks[a].size < k
  {
    if NothingFits(h.lists, k) {
      forall a | a in h.chunks && !h.chunks[a].inUse ensures h.chunks[a].size < k {
        assert a in FreeSet(h.chunks);
      }
    } else {
      var s :| s in h.lists && s >= k;
      var a := h.lists[s][0];
      assert a in h.lists[s] && a in FreeSet(h.chunks);
    }
  }

  /** The block [b, b + len) lies in a free chunk of the least sufficient size. */
  predicate BestFit(chunks: Chunks, b: nat, len: nat, a: nat) {
    && a in chunks && !chunks[a].inUse && len <= chunks[a].size
    && a <= b && b + len <= a + chunks[a].size
    && (forall c :: c in chunks && !chunks[c].inUse && len <= chunks[c].size ==> chunks[a].size <= chunks[c].size)
  }

  /** The free chunk that malloc splits: the front of the first long enough list. */
  ghost function Chosen(h: Heap, len: nat): (a: nat)
    requires Sound(h) && !NothingFits(h.lists, len)
    ensures a in h.chunks
  {
    h.lists[LowerBound(h.lists, len)][0]
  }

  lemma ChosenBestFits(h: Heap, len: nat)
    requires Valid(h) && Sound(h) && !NothingFits(h.lists, len)
    ensures var a := Chosen(h, len);
      && !h.chunks[a].inUse && len <= h.chunks[a].size
      && forall c :: c in h.chunks && !h.chunks[c].inUse && len <= h.chunks[c].size ==> h.chunks[a].size <= h.chunks[c].size
  {
    var s := LowerBound(h.lists, len);
    var a := Chosen(h, len);
    assert a in h.lists[s] && a in FreeSet(h.chunks);
    forall c | c in h.chunks && !h.chunks[c].inUse && len <= h.chunks[c].size ensures s <= h.chunks[c].size {
      assert c in FreeSet(h.chunks);
    }
  }

  lemma MallocUnfold(h: Heap, n: nat)
    requires Sound(h) && n >= 1 && !NothingFits(h.lists, NextLargestPowerOf2(n))
    ensures var len := NextLargestPowerOf2(n);
      var (h1, b) := SplitDown(h, Chosen(h, len), len);
      Malloc(h, n) == Some((Take(h1, b), b))
  {
  }

  /** What a successful malloc does to the live blocks. */
  lemma MallocEffect(h: Heap, n: nat, h': Heap, b: nat)
    requires Valid(h) && n >= 1 && AtMost2To(n, 62) && Sound(h) && Malloc(h, n) == Some((h', b))
    ensures Valid(h') && h'.size == h.size && !InUse(h.chunks, b)
    ensures Live(h'.chunks) == Live(h.chunks) + {Block(b, NextLargestPowerOf2(n))}
  {
    var len := NextLargestPowerOf2(n);
    NextLargestIsLeast(n);
    MallocUnfold(h, n);
    ChosenBestFits(h, len);
    SplitDownValid(h, Chosen(h, len), len);
    TakeValid(SplitDown(h, Chosen(h, len), len).0, b);
  }

  /** A successful malloc takes its block out of a best-fitting free chunk and leaves all others alone. */
  lemma MallocPlaces(h: Heap, n: nat, h': Heap, b: nat)
    requires Valid(h) && n >= 1 && AtMost2To(n, 62) && Sound(h) && Malloc(h, n) == Some((h', b))
    ensures exists a :: BestFit(h.chunks, b, NextLargestPowerOf2(n), a) && Keeps(h.chunks, h'.chunks, a)
  {
    var len := NextLargestPowerOf2(n);
    NextLargestIsLeast(n);
    MallocUnfold(h, n);
    ChosenBestFits(h, len);
    var a := Chosen(h, len);
    SplitDownValid(h, a, len);
    var h1 := SplitDown(h, a, len).0;
    assert Keeps(h.chunks, Take(h1, b).chunks, a) by {
      forall c | c in h.chunks && c != a ensures c != b {
        OtherChunkOutside(h.chunks, h.size, a, c);
      }
    }
    assert BestFit(h.chunks, b, len, a);
  }

  /**
   malloc(n), for 1 <= n <= 2^62, in a valid heap.  It throws exactly when no free
   chunk has as many bytes as the least power of two that is at least n.  Otherwise
   it adds exactly one live block, of exactly that length, inside a best-fitting free
   chunk, touches no other chunk, and leaves the heap valid; so the new block is
   disjoint from all live blocks.
   */
  lemma MallocContract(h: Heap, n: nat)
    requires Valid(h) && n >= 1 && AtMost2To(n, 62)
    ensures Sound(h)
    ensures var len := NextLargestPowerOf2(n);
      && IsPow2(len) && n <= len < 2 * n
      && (Malloc(h, n).None? <==> forall a :: a in h.chunks && !h.chunks[a].inUse ==> h.chunks[a].size < len)
      && (Malloc(h, n).Some? ==>
            var (h', b) := Malloc(h, n).value;
            && Valid(h') && h'.size == h.size
            && !InUse(h.chunks, b) && Live(h'.chunks) == Live(h.chunks) + {Block(b, len)}
            && exists a :: BestFit(h.chunks, b, len, a) && Keeps(h.chunks, h'.chunks, a))
  {
    ValidSound(h);
    NextLargestIsLeast(n);
    FitsIff(h, NextLargestPowerOf2(n));
    if Malloc(h, n).Some? {
      var (h', b) := Malloc(h, n).value;
      MallocEffect(h, n, h', b);
      MallocPlaces(h, n, h', b);
    }
  }

  /** Another chunk does not start inside chunk a. */
  lemma OtherChunkOutside(chunks: Chunks, n: nat, a: nat, c: nat)
    requires Tiled(chunks, n) && a in chunks && c in chunks && c != a
    ensures c < a || a + chunks[a].size <= c
  {
  }

  /** In a valid heap the live blocks are pairwise disjoint and lie within the heap. */
  lemma LiveDisjoint(h: Heap, j: Block, k: Block)
    requires Valid(h) && j in Live(h.chunks) && k in Live(h.chunks) && j != k
    ensures j.offset + j.length <= h.size && (j.offset + j.length <= k.offset || k.offset + k.length <= j.offset)
  {
  }

  // ---------- Merging ----------

  /** Chunk lo of size s swallows its upper neighbour. */
  function MergeChunks(chunks: Chunks, lo: nat, s: nat): Chunks {
    (chunks - {lo + s})[lo := Chunk(false, 2 * s)]
  }

  /** The buddy is an adjacent chunk of the same size, on either side. */
  lemma BuddyAdjacent(chunks: Chunks, a: nat)
    requires a in chunks && IsPow2(chunks[a].size) && CanMerge(chunks, a)
    ensures var lo, hi, s := Lower(chunks, a), Higher(chunks, a), chunks[a].size;
      && s >= 1 && hi == lo + s && lo in chunks && hi in chunks
      && chunks[lo].size == s && chunks[hi].size == s && {lo, hi} == {a, Xor(a, s)}
  {
    XorPow2(a, chunks[a].size);
  }

  lemma MergeNoGap(chunks: Chunks, n: nat, lo: nat, s: nat)
    requires Tiled(chunks, n) && s >= 1 && lo in chunks && lo + s in chunks
    requires chunks[lo].size == s && chunks[lo + s].size == s
    ensures NoGap(MergeChunks(chunks, lo, s), n)
  {
    var chunks' := MergeChunks(chunks, lo, s);
    assert Follows(chunks, n, lo + s);
    forall b | b in chunks' ensures Follows(chunks', n, b) {
      if b != lo {
        assert Follows(chunks, n, b);
        EndsDiffer(chunks, lo, b);
      }
    }
  }

  /** Two chunks do not end at the same place. */
  lemma EndsDiffer(chunks: Chunks, a: nat, b: nat)
    requires NoOverlap(chunks) && a in chunks && b in chunks && a != b && chunks[a].size >= 1 && chunks[b].size >= 1
    ensures a + chunks[a].size != b + chunks[b].size
  {
  }

  lemma MergeNoOverlap(chunks: Chunks, n: nat, lo: nat, s: nat)
    requires Tiled(chunks, n) && s >= 1 && lo in chunks && lo + s in chunks
    requires chunks[lo].size == s && chunks[lo + s].size == s
    ensures NoOverlap(MergeChunks(chunks, lo, s)) && Bounded(MergeChunks(chunks, lo, s), n)
  {
  }

  lemma MergeTiled(chunks: Chunks, n: nat, lo: nat, s: nat)
    requires Tiled(chunks, n) && s >= 1 && lo in chunks && lo + s in chunks
    requires chunks[lo].size == s && chunks[lo + s].size == s
    ensures Tiled(MergeChunks(chunks, lo, s), n)
  {
    MergeNoGap(chunks, n, lo, s);
    MergeNoOverlap(chunks, n, lo, s);
  }

  /** Erasing a chunk from its list and from the map. */
  lemma EraseListing(h: Heap, b: nat)
    requires Listing(h.lists, h.chunks, FreeSet(h.chunks)) && b in h.chunks && !h.chunks[b].inUse
    ensures var h1 := Take(h, b);
      var h' := h1.(chunks := h1.chunks - {b});
      Listing(h'.lists, h'.chunks, FreeSet(h'.chunks)) && h'.chunks == h.chunks - {b}
  {
    var free := FreeSet(h.chunks);
    var h1 := Take(h, b);
    var h' := h1.(chunks := h1.chunks - {b});
    TakeListing(h.lists, h.chunks, free, b);
    ListingFrame(h1.lists, h.chunks, h'.chunks, free - {b});
    assert FreeSet(h'.chunks) == free - {b};
  }

  lemma MergeOnceListing(h: Heap, a: nat)
    requires Listing(h.lists, h.chunks, FreeSet(h.chunks))
    requires a in h.chunks && !h.chunks[a].inUse && IsPow2(h.chunks[a].size) && CanMerge(h.chunks, a)
    ensures var h' := MergeOnce(h, a);
      && Listing(h'.lists, h'.chunks, FreeSet(h'.chunks))
      && h'.chunks == MergeChunks(h.chunks, Lower(h.chunks, a), h.chunks[a].size) && h'.size == h.size
  {
    hide Listing, Unlisted, Relisted, IsPow2, Xor, MergeOnce;
    BuddyAdjacent(h.chunks, a);
    var lo, hi, s := Lower(h.chunks, a), Higher(h.chunks, a), h.chunks[a].size;
    EraseListing(h, hi);
    var h1 := Take(h, hi);
    var h2 := h1.(chunks := h1.chunks - {hi});
    RelistListing(h2, lo, 2 * s);
    MergeOnceParts(h, a);
  }

  lemma MergeOnceParts(h: Heap, a: nat)
    requires a in h.chunks && IsPow2(h.chunks[a].size) && CanMerge(h.chunks, a)
    ensures var lo, hi := Lower(h.chunks, a), Higher(h.chunks, a);
      var h1 := Take(h, hi);
      var h2 := h1.(chunks := h1.chunks - {hi});
      lo in h2.chunks && MergeOnce(h, a) == Put(Resize(Take(h2, lo), lo, 2 * h.chunks[a].size), lo)
  {
    BuddyAdjacent(h.chunks, a);
  }

  lemma MergeLive(chunks: Chunks, lo: nat, s: nat)
    requires lo in chunks && !chunks[lo].inUse && lo + s in chunks && !chunks[lo + s].inUse
    ensures Live(MergeChunks(chunks, lo, s)) == Live(chunks)
  {
    SameLive(chunks, MergeChunks(chunks, lo, s));
  }

  lemma MergePow2Sizes(chunks: Chunks, lo: nat, s: nat)
    requires Pow2Sizes(chunks) && IsPow2(s)
    ensures Pow2Sizes(MergeChunks(chunks, lo, s))
  {
    Double(s);
  }

  lemma BuddiesFree(chunks: Chunks, a: nat)
    requires a in chunks && !chunks[a].inUse && IsPow2(chunks[a].size) && CanMerge(chunks, a)
    ensures var lo, s := Lower(chunks, a), chunks[a].size;
      && s >= 1 && lo in chunks && chunks[lo] == Chunk(false, s)
      && lo + s in chunks && chunks[lo + s] == Chunk(false, s) && (lo == a || lo + s == a)
  {
    BuddyAdjacent(chunks, a);
  }

  lemma MergeOnceValid(h: Heap, a: nat)
    requires Valid(h) && a in h.chunks && !h.chunks[a].inUse && CanMerge(h.chunks, a)
    ensures var h', lo, s := MergeOnce(h, a), Lower(h.chunks, a), h.chunks[a].size;
      && Valid(h') && h'.size == h.size && Live(h'.chunks) == Live(h.chunks)
      && h'.chunks == MergeChunks(h.chunks, lo, s)
  {
    hide Listing, MergeOnce, Xor, IsPow2;
    var lo, s := Lower(h.chunks, a), h.chunks[a].size;
    BuddiesFree(h.chunks, a);
    MergeOnceListing(h, a);
    MergeTiled(h.chunks, h.size, lo, s);
    MergeLive(h.chunks, lo, s);
    MergePow2Sizes(h.chunks, lo, s);
  }

  lemma MergeUpUnfold(h: Heap, a: nat)
    requires a in h.chunks && IsPow2(h.chunks[a].size) && CanMerge(h.chunks, a)
    ensures var lo := Lower(h.chunks, a);
      lo in MergeOnce(h, a).chunks && IsPow2(MergeOnce(h, a).chunks[lo].size)
      && MergeUp(h, a) == MergeUp(MergeOnce(h, a), lo)
      && |MergeOnce(h, a).chunks| < |h.chunks|
  {
    MergeOnceShrinks(h, a);
    Double(h.chunks[a].size);
  }

  lemma {:induction false} MergeUpValid(h: Heap, a: nat)
    requires Valid(h) && a in h.chunks && !h.chunks[a].inUse
    ensures Valid(MergeUp(h, a)) && MergeUp(h, a).size == h.size && Live(MergeUp(h, a).chunks) == Live(h.chunks)
    decreases |h.chunks|
  {
    if CanMerge(h.chunks, a) {
      MergeUpUnfold(h, a);
      MergeOnceValid(h, a);
      MergeUpValid(MergeOnce(h, a), Lower(h.chunks, a));
    }
  }

  lemma PutValid(h: Heap, a: nat)
    requires Valid(h) && a in h.chunks && h.chunks[a].inUse
    ensures Valid(Put(h, a)) && Live(Put(h, a).chunks) == Live(h.chunks) - {Block(a, h.chunks[a].size)}
  {
    var h' := Put(h, a);
    var free := FreeSet(h.chunks);
    PutListing(h.lists, h.chunks, free, a);
    ListingFrame(h'.lists, h.chunks, h'.chunks, free + {a});
    assert FreeSet(h'.chunks) == free + {a};
    MarkTiled(h.chunks, h.size, a, h'.chunks[a]);
    LiveAdded(h'.chunks, h.chunks, a, h.chunks[a].size);
  }

  /** Freeing a live block removes exactly that block and leaves the heap valid. */
  lemma FreeContract(h: Heap, a: nat)
    requires Valid(h) && InUse(h.chunks, a)
    ensures IsPow2(h.chunks[a].size) && Valid(Free(h, a)) && Free(h, a).size == h.size
    ensures Live(Free(h, a).chunks) == Live(h.chunks) - {Block(a, h.chunks[a].size)}
  {
    PutValid(h, a);
    MergeUpValid(Put(h, a), a);
  }

  /** Listing a chunk and taking it off its list again changes nothing. */
  lemma ListedAndTaken(h: Heap, a: nat)
    requires Valid(h) && InUse(h.chunks, a)
    ensures Take(Put(h, a), a) == h
  {
    var size := h.chunks[a].size;
    assert ([a] + ListOf(h.lists, size))[1..] == ListOf(h.lists, size);
    assert h.chunks[a := h.chunks[a].(inUse := false)][a := h.chunks[a]] == h.chunks;
    NoEmptyLists(h);
    if size in h.lists {
      assert h.lists[size := [a] + h.lists[size]][size := h.lists[size]] == h.lists;
    } else {
      assert h.lists[size := [a] + []] - {size} == h.lists;
    }
  }

  lemma NoEmptyLists(h: Heap)
    requires Valid(h)
    ensures forall s :: s in h.lists ==> h.lists[s] != []
  {
    ValidSound(h);
  }

  /**
   The block freed last is handed out first: unless its buddy is free, too, freeing a
   block and asking for its size again gives the same block, and the heap is as before.
   */
  lemma FreedIsReused(h: Heap, a: nat, n: nat)
    requires Valid(h) && InUse(h.chunks, a) && n >= 1 && NextLargestPowerOf2(n) == h.chunks[a].size
    requires !CanMerge(Put(h, a).chunks, a)
    ensures IsPow2(h.chunks[a].size) && Sound(Free(h, a)) && Malloc(Free(h, a), n) == Some((h, a))
  {
    var size := h.chunks[a].size;
    FreeContract(h, a);
    ValidSound(Free(h, a));
    ListedAndTaken(h, a);
    var h1 := Put(h, a);
    assert Free(h, a) == h1;
    assert size in h1.lists && h1.lists[size][0] == a;
    assert IsLowerBound(h1.lists, size, size);
    hide Valid, Take, NextLargestPowerOf2;
    assert LowerBound(h1.lists, size) == size;
    assert SplitDown(h1, a, size) == (h1, a);
  }

  // ---------- malloc(0) ----------

  lemma UpperHalf(h: Heap, a: nat)
    requires a in h.chunks
    ensures var half := h.chunks[a].size / 2;
      a + half in SplitOnce(h, a).chunks && SplitOnce(h, a).chunks[a + half].size == half
  {
  }

  /** Splitting towards 0 goes through the chunk that splitting towards 1 ends in. */
  lemma {:induction false} SplitTowardsZero(h: Heap, a: nat)
    requires a in h.chunks
    ensures var (h', b) := SplitDown(h, a, 1); SplitDown(h, a, 0) == SplitDown(h', b, 0)
    decreases h.chunks[a].size
  {
    hide SplitOnce;
    if h.chunks[a].size > 1 {
      UpperHalf(h, a);
      SplitTowardsZero(SplitOnce(h, a), a + h.chunks[a].size / 2);
    }
  }

  /**
   malloc(0) rounds its size to 0, and in a heap with a free chunk it splits the first one
   down to a chunk of one byte and on: the next chunk to insert has no bytes, and its
   address is in the map, which is what the assert on insertion excludes.
   */
  lemma MallocZero(h: Heap)
    requires Valid(h)
    ensures Smeared(0) == 0 && Sound(h)
    ensures NothingFits(h.lists, 0) <==> forall a :: a in h.chunks ==> h.chunks[a].inUse
    ensures !NothingFits(h.lists, 0) ==>
      var a := h.lists[LowerBound(h.lists, 0)][0];
      var (h', b) := SplitDown(h, a, 1);
      && SplitDown(h, a, 0) == SplitDown(h', b, 0)
      && b in h'.chunks && h'.chunks[b] == Chunk(false, 1) && h'.chunks[b].size / 2 == 0
      && b + h'.chunks[b].size / 2 in h'.chunks
  {
    ZeroSmearsToZero();
    ValidSound(h);
    FitsIff(h, 0);
    hide Smeared, Valid, SplitDown, NothingFits, Sound;
    if !NothingFits(h.lists, 0) {
      var k := LowerBound(h.lists, 0);
      ZeroReached(h, k);
    }
  }

  lemma ZeroReached(h: Heap, k: nat)
    requires Valid(h) && Sound(h) && k in h.lists
    ensures var (h', b) := SplitDown(h, h.lists[k][0], 1);
      && SplitDown(h, h.lists[k][0], 0) == SplitDown(h', b, 0)
      && b in h'.chunks && h'.chunks[b] == Chunk(false, 1)
  {
    var a := h.lists[k][0];
    ZeroChosen(h, k);
    SplitTowardsZero(h, a);
    hide Valid;
    SplitDownValid(h, a, 1);
    hide SplitDown;
  }

  lemma ZeroChosen(h: Heap, k: nat)
    requires Valid(h) && k in h.lists
    ensures h.lists[k] != [] && h.lists[k][0] in h.chunks && !h.chunks[h.lists[k][0]].inUse
    ensures IsPow2(1) && 1 <= h.chunks[h.lists[k][0]].size
  {
    One();
    ValidPow2(h, h.lists[k][0]);
  }
}
