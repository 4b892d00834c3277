/**
 Byte accounting: every byte of a valid heap lies in exactly one chunk, the chunk
 sizes add up to the heap, and the bytes in use are those of the live blocks.
 */
module AllocatorBytes {
  import opened Basics
  import opened Bits
  import opened Allocator
  import opened AllocatorProofs

  // ---------- Every byte in exactly one chunk ----------

  predicate Holds(chunks: Chunks, a: nat, x: nat) {
    a in chunks && a <= x < a + chunks[a].size
  }

  lemma {:induction false} HolderFrom(chunks: Chunks, n: nat, p: nat, x: nat) returns (a: nat)
    requires Tiled(chunks, n) && p in chunks && p <= x < n
    ensures Holds(chunks, a, x)
    decreases n - p
  {
    if x < p + chunks[p].size {
      a := p;
    } else {
      assert Follows(chunks, n, p);
      a := HolderFrom(chunks, n, p + chunks[p].size, x);
    }
  }

  lemma ByteHeldOnce(h: Heap, x: nat)
    requires Valid(h) && x < h.size
    ensures exists a :: Holds(h.chunks, a, x) && forall b :: Holds(h.chunks, b, x) ==> b == a
  {
    var a := HolderFrom(h.chunks, h.size, 0, x);
    forall b | Holds(h.chunks, b, x) ensures b == a {
    }
  }

  // ---------- Sums of block lengths ----------

  ghost function Total(blocks: set<Block>): nat {
    if blocks == {} then 0
    else
      var k :| k in blocks;
      k.length + Total(blocks - {k})
  }

  lemma {:induction false} TotalWithout(blocks: set<Block>, k: Block)
    requires k in blocks
    ensures Total(blocks) == k.length + Total(blocks - {k})
    decreases blocks
  {
    var j :| j in blocks && Total(blocks) == j.length + Total(blocks - {j});
    if j != k {
      TotalWithout(blocks - {j}, k);
      TotalWithout(blocks - {k}, j);
      assert blocks - {j} - {k} == blocks - {k} - {j};
    }
  }

  lemma TotalWith(blocks: set<Block>, k: Block)
    requires k !in blocks
    ensures Total(blocks + {k}) == Total(blocks) + k.length
  {
    TotalWithout(blocks + {k}, k);
    assert blocks + {k} - {k} == blocks;
  }

  lemma {:induction false} TotalUnion(b1: set<Block>, b2: set<Block>)
    requires b1 !! b2
    ensures Total(b1 + b2) == Total(b1) + Total(b2)
    decreases b2
  {
    if b2 == {} {
      assert b1 + b2 == b1;
    } else {
      var k :| k in b2;
      TotalUnion(b1, b2 - {k});
      TotalWithout(b2, k);
      TotalWith(b1 + (b2 - {k}), k);
      assert b1 + (b2 - {k}) + {k} == b1 + b2;
    }
  }

  // ---------- The heap's totals ----------

  /** The chunks at the given offsets, as blocks. */
  function Blocks(chunks: Chunks, offsets: set<nat>): set<Block> {
    set a | a in offsets && a in chunks :: Block(a, chunks[a].size)
  }

  lemma BlocksMember(chunks: Chunks, offsets: set<nat>, k: Block)
    ensures k in Blocks(chunks, offsets) <==>
      k.offset in offsets && k.offset in chunks && k.length == chunks[k.offset].size
  {
  }

  lemma BlocksWith(chunks: Chunks, offsets: set<nat>, a: nat)
    requires a in chunks && a !in offsets
    ensures Total(Blocks(chunks, offsets + {a})) == Total(Blocks(chunks, offsets)) + chunks[a].size
  {
    var k := Block(a, chunks[a].size);
    forall j ensures j in Blocks(chunks, offsets + {a}) <==> j in Blocks(chunks, offsets) || j == k {
      BlocksMember(chunks, offsets, j);
      BlocksMember(chunks, offsets + {a}, j);
    }
    assert Blocks(chunks, offsets + {a}) == Blocks(chunks, offsets) + {k};
    BlocksMember(chunks, offsets, k);
    TotalWith(Blocks(chunks, offsets), k);
  }

  function From(chunks: Chunks, p: nat): set<nat> {
    set a | a in chunks && a >= p
  }

  lemma {:induction false} TotalFrom(chunks: Chunks, n: nat, p: nat)
    requires Tiled(chunks, n) && p <= n && (p == n || p in chunks)
    ensures Total(Blocks(chunks, From(chunks, p))) == n - p
    decreases n - p
  {
    if p == n {
      assert From(chunks, p) == {};
      assert Blocks(chunks, {}) == {};
    } else {
      var q := p + chunks[p].size;
      assert Follows(chunks, n, p);
      TotalFrom(chunks, n, q);
      assert From(chunks, p) == From(chunks, q) + {p};
      BlocksWith(chunks, From(chunks, q), p);
    }
  }

  function UsedSet(chunks: Chunks): set<nat> {
    set a | a in chunks && chunks[a].inUse
  }

  lemma UsedBlocks(chunks: Chunks)
    ensures Blocks(chunks, UsedSet(chunks)) == Live(chunks)
  {
    forall k ensures k in Blocks(chunks, UsedSet(chunks)) <==> k in Live(chunks) {
      BlocksMember(chunks, UsedSet(chunks), k);
      LiveBlock(chunks, k);
    }
  }

  lemma UsedOrFree(chunks: Chunks)
    ensures var used, free := Blocks(chunks, UsedSet(chunks)), Blocks(chunks, FreeSet(chunks));
      used !! free && used + free == Blocks(chunks, chunks.Keys)
  {
    hide Blocks;
    var used, free := Blocks(chunks, UsedSet(chunks)), Blocks(chunks, FreeSet(chunks));
    forall k
      ensures k in Blocks(chunks, chunks.Keys) <==> k in used + free
      ensures k !in used || k !in free
    {
      BlocksMember(chunks, chunks.Keys, k);
      BlocksMember(chunks, UsedSet(chunks), k);
      BlocksMember(chunks, FreeSet(chunks), k);
    }
  }

  /** The chunks of a valid heap add up to its size, and so do the used and the free ones. */
  lemma TotalsAgree(h: Heap)
    requires Valid(h)
    ensures Total(Blocks(h.chunks, h.chunks.Keys)) == h.size
    ensures Total(Live(h.chunks)) + Total(Blocks(h.chunks, FreeSet(h.chunks))) == h.size
  {
    hide Blocks, Live, Total, Listing;
    var chunks := h.chunks;
    TotalFrom(chunks, h.size, 0);
    assert From(chunks, 0) == chunks.Keys;
    UsedBlocks(chunks);
    UsedOrFree(chunks);
    TotalUnion(Blocks(chunks, UsedSet(chunks)), Blocks(chunks, FreeSet(chunks)));
  }

  /** A successful malloc moves exactly its block's bytes from free to used. */
  lemma MallocBytes(h: Heap, n: nat, h': Heap, b: nat)
    requires Valid(h) && n >= 1 && AtMost2To(n, 62) && Sound(h) && Malloc(h, n) == Some((h', b))
    ensures Total(Live(h'.chunks)) == Total(Live(h.chunks)) + NextLargestPowerOf2(n)
  {
    MallocEffect(h, n, h', b);
    LiveBlock(h.chunks, Block(b, NextLargestPowerOf2(n)));
    TotalWith(Live(h.chunks), Block(b, NextLargestPowerOf2(n)));
  }

  lemma FreeBytes(h: Heap, a: nat)
    requires Valid(h) && InUse(h.chunks, a)
    ensures IsPow2(h.chunks[a].size)
    ensures Total(Live(h.chunks)) == Total(Live(Free(h, a).chunks)) + h.chunks[a].size
  {
    FreeContract(h, a);
    LiveBlock(h.chunks, Block(a, h.chunks[a].size));
    TotalWithout(Live(h.chunks), Block(a, h.chunks[a].size));
  }
}
