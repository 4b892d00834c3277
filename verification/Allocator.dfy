/**
 The buddy allocator of the global heap: what its operations do to the chunk map
 and the free lists, as functions on values.  AllocatorProofs.dfy proves what they
 promise; AllocatorClass.dfy has the operations themselves, which change the two
 maps in place and are proved equal to these functions.
 */
module Allocator {
  import opened Basics
  import opened Bits

  datatype Chunk = Chunk(inUse: bool, size: nat)

  /** Chunks by offset from the heap's base. */
  type Chunks = map<nat, Chunk>

  /** For each size with free chunks, their offsets, most recently freed first. */
  type FreeLists = map<nat, seq<nat>>

  datatype Heap = Heap(size: nat, chunks: Chunks, lists: FreeLists)

  // ---------- Free lists ----------

  /** xs without its first a: what erasing a's slot leaves. */
  function Without(xs: seq<nat>, a: nat): seq<nat> {
    if xs == [] then [] else if xs[0] == a then xs[1..] else [xs[0]] + Without(xs[1..], a)
  }

  function ListOf(lists: FreeLists, s: nat): seq<nat> {
    if s in lists then lists[s] else []
  }

  function Unlisted(lists: FreeLists, s: nat, a: nat): FreeLists {
    var xs := Without(ListOf(lists, s), a);
    if xs == [] then lists - {s} else lists[s := xs]
  }

  function Relisted(lists: FreeLists, s: nat, a: nat): FreeLists {
    lists[s := [a] + ListOf(lists, s)]
  }

  /** `remove_from_free_list` */
  function Take(h: Heap, a: nat): Heap
    requires a in h.chunks
  {
    h.(lists := Unlisted(h.lists, h.chunks[a].size, a), chunks := h.chunks[a := h.chunks[a].(inUse := true)])
  }

  /** `add_to_free_list` */
  function Put(h: Heap, a: nat): Heap
    requires a in h.chunks
  {
    h.(lists := Relisted(h.lists, h.chunks[a].size, a), chunks := h.chunks[a := h.chunks[a].(inUse := false)])
  }

  function Resize(h: Heap, a: nat, s: nat): Heap
    requires a in h.chunks
  {
    h.(chunks := h.chunks[a := h.chunks[a].(size := s)])
  }

  // ---------- Splitting and allocation ----------

  /** Chop chunk a in half; both halves end up free. */
  function SplitOnce(h: Heap, a: nat): Heap
    requires a in h.chunks
  {
    var half := h.chunks[a].size / 2;
    var h1 := Put(Resize(Take(h, a), a, half), a);
    Put(h1.(chunks := h1.chunks[a + half := Chunk(false, half)]), a + half)
  }

  /** Halve chunk a, then its upper half, and so on, until a chunk of size alloc is reached; its offset is the result. */
  function SplitDown(h: Heap, a: nat, alloc: nat): (r: (Heap, nat))
    requires a in h.chunks
    ensures r.1 in r.0.chunks
    decreases h.chunks[a].size
  {
    if h.chunks[a].size <= alloc then (h, a)
    else SplitDown(SplitOnce(h, a), a + h.chunks[a].size / 2, alloc)
  }

  /** s is the first free-list key that is at least k. */
  predicate IsLowerBound(lists: FreeLists, k: nat, s: nat) {
    s in lists && k <= s && forall t :: t in lists && k <= t ==> s <= t
  }

  predicate NothingFits(lists: FreeLists, k: nat) {
    forall s :: s in lists ==> s < k
  }

  lemma {:induction false} LowerBoundExists(lists: FreeLists, k: nat, t: nat)
    requires t in lists && k <= t
    ensures exists s :: IsLowerBound(lists, k, s)
    decreases t
  {
    if !IsLowerBound(lists, k, t) {
      var u :| u in lists && k <= u && u < t;
      LowerBoundExists(lists, k, u);
    }
  }

  ghost function LowerBound(lists: FreeLists, k: nat): (s: nat)
    requires !NothingFits(lists, k)
    ensures IsLowerBound(lists, k, s)
  {
    var t :| t in lists && k <= t;
    LowerBoundExists(lists, k, t);
    var s :| IsLowerBound(lists, k, s);
    s
  }

  /** The free lists name chunks. */
  predicate Sound(h: Heap) {
    forall s :: s in h.lists ==> h.lists[s] != [] && h.lists[s][0] in h.chunks
  }

  /** The new heap and the offset of the allocated chunk, or nothing when the allocator throws. */
  ghost function Malloc(h: Heap, n: nat): Option<(Heap, nat)>
    requires Sound(h) && n >= 1
  {
    var alloc := NextLargestPowerOf2(n);
    if NothingFits(h.lists, alloc) then None
    else
      var a := h.lists[LowerBound(h.lists, alloc)][0];
      var (h', b) := SplitDown(h, a, alloc);
      Some((Take(h', b), b))
  }

  // ---------- Merging and freeing ----------

  /** The buddy that chunk a can merge with, if it exists, has the same size and is free. */
  predicate CanMerge(chunks: Chunks, a: nat)
    requires a in chunks
  {
    var b := Xor(a, chunks[a].size);
    b in chunks && chunks[b].size == chunks[a].size && !chunks[b].inUse
  }

  function Lower(chunks: Chunks, a: nat): nat
    requires a in chunks
  {
    var b := Xor(a, chunks[a].size);
    if a < b then a else b
  }

  function Higher(chunks: Chunks, a: nat): nat
    requires a in chunks
  {
    var b := Xor(a, chunks[a].size);
    if a < b then b else a
  }

  /** Remove the higher buddy and double the lower one. */
  function MergeOnce(h: Heap, a: nat): Heap
    requires a in h.chunks && IsPow2(h.chunks[a].size) && CanMerge(h.chunks, a)
  {
    XorPow2(a, h.chunks[a].size);
    var lo, hi := Lower(h.chunks, a), Higher(h.chunks, a);
    var h1 := Take(h, hi);
    var h2 := Take(h1.(chunks := h1.chunks - {hi}), lo);
    Put(Resize(h2, lo, 2 * h2.chunks[lo].size), lo)
  }

  lemma MergeOnceShrinks(h: Heap, a: nat)
    requires a in h.chunks && IsPow2(h.chunks[a].size) && CanMerge(h.chunks, a)
    ensures var h', lo := MergeOnce(h, a), Lower(h.chunks, a);
      |h'.chunks| < |h.chunks| && lo in h'.chunks && h'.chunks[lo].size == 2 * h.chunks[a].size
  {
    XorPow2(a, h.chunks[a].size);
    var hi := Higher(h.chunks, a);
    assert MergeOnce(h, a).chunks.Keys == h.chunks.Keys - {hi};
  }

  /** `try_merge_buddy_recursive` */
  function MergeUp(h: Heap, a: nat): Heap
    requires a in h.chunks && IsPow2(h.chunks[a].size)
    decreases |h.chunks|
  {
    if CanMerge(h.chunks, a) then
      MergeOnceShrinks(h, a);
      Double(h.chunks[a].size);
      MergeUp(MergeOnce(h, a), Lower(h.chunks, a))
    else h
  }

  function Free(h: Heap, a: nat): Heap
    requires a in h.chunks && IsPow2(h.chunks[a].size)
  {
    MergeUp(Put(h, a), a)
  }

  // ---------- Construction ----------

  /** The first chunk the constructor carves off n remaining bytes. */
  function FirstChunk(n: nat): nat
    requires n >= 1
  {
    if And(n, n - 1) != 0 then NextLargestPowerOf2(n / 2) else n
  }

  lemma FirstChunkFits(n: nat)
    requires n >= 1 && AtMost2To(n, 63)
    ensures 1 <= FirstChunk(n) <= n && IsPow2(FirstChunk(n))
    ensures if IsPow2(n) then FirstChunk(n) == n else n / 2 <= FirstChunk(n) < 2 * (n / 2)
  {
    AndPredecessor(n);
    if And(n, n - 1) != 0 {
      if n == 1 { One(); }
      AtMostHalf(n, 63);
      NextLargestIsLeast(n / 2);
    }
  }

  /** The sizes of the chunks that the constructor carves n bytes into. */
  function Sizes(n: nat): seq<nat>
    requires AtMost2To(n, 63)
    decreases n
  {
    if n == 0 then []
    else
      FirstChunkFits(n);
      [FirstChunk(n)] + Sizes(n - FirstChunk(n))
  }

  /** Add a new free chunk of s bytes at offset. */
  function CarveOnce(h: Heap, offset: nat, s: nat): Heap {
    Put(h.(chunks := h.chunks[offset := Chunk(false, s)]), offset)
  }

  /** The constructor's loop. */
  function Carve(h: Heap, offset: nat, sizes: seq<nat>): Heap
    decreases |sizes|
  {
    if sizes == [] then h else Carve(CarveOnce(h, offset, sizes[0]), offset + sizes[0], sizes[1..])
  }

  function InitialHeap(n: nat): Heap
    requires AtMost2To(n, 63)
  {
    Carve(Heap(n, map[], map[]), 0, Sizes(n))
  }
}
