/**
 The allocator as the source writes it: one object that updates its chunk map and
 free lists in place.  Every method is proved equal to its function on values.
 */
module AllocatorClass {
  import opened Basics
  import opened Bits
  import opened Allocator
  import opened AllocatorProofs
  import opened AllocatorRuns
  import opened AllocatorBytes

  lemma NoBlocks(chunks: Chunks)
    ensures Total(Blocks(chunks, {})) == 0
  {
    assert Blocks(chunks, {}) == {};
  }

  class BuddyAllocator {
    const base: int
    const size: nat
    var chunks: Chunks
    var lists: FreeLists

    ghost function View(): Heap
      reads this
    {
      Heap(size, chunks, lists)
    }

    // ---------- Private operations ----------

    method RemoveFromFreeList(a: nat)
      requires a in chunks
      modifies this
      ensures View() == Take(old(View()), a)
    {
      var s := chunks[a].size;
      var xs := Without(ListOf(lists, s), a);
      if xs == [] { lists := lists - {s}; } else { lists := lists[s := xs]; }
      chunks := chunks[a := chunks[a].(inUse := true)];
    }

    method AddToFreeList(a: nat)
      requires a in chunks
      modifies this
      ensures View() == Put(old(View()), a)
    {
      var s := chunks[a].size;
      lists := lists[s := [a] + ListOf(lists, s)];
      chunks := chunks[a := chunks[a].(inUse := false)];
    }

    method AddToChunkMap(a: nat, s: nat)
      requires a !in chunks
      modifies this`chunks
      ensures chunks == old(chunks)[a := Chunk(false, s)]
    {
      chunks := chunks[a := Chunk(false, s)];
    }

    method AddChunk(a: nat, s: nat)
      requires a !in chunks
      modifies this
      ensures View() == CarveOnce(old(View()), a, s)
    {
      AddToChunkMap(a, s);
      AddToFreeList(a);
    }

    method SetSize(a: nat, s: nat)
      requires a in chunks
      modifies this`chunks
      ensures View() == Resize(old(View()), a, s)
    {
      chunks := chunks[a := chunks[a].(size := s)];
    }

    /** The first free-list key that is at least k. */
    method LowerBoundKey(k: nat) returns (r: Option<nat>)
      ensures r.None? <==> NothingFits(lists, k)
      ensures r.Some? ==> IsLowerBound(lists, k, r.value)
    {
      r := None;
      var keys := lists.Keys;
      while keys != {}
        invariant keys <= lists.Keys
        invariant r.None? ==> forall t :: t in lists && t !in keys ==> t < k
        invariant r.Some? ==> r.value in lists && k <= r.value
        invariant r.Some? ==> forall t :: t in lists && t !in keys && k <= t ==> r.value <= t
        decreases keys
      {
        var t :| t in keys;
        keys := keys - {t};
        if k <= t && (r.None? || t < r.value) { r := Some(t); }
      }
    }

    /** Chop chunk a in half, both halves free; the result is the upper half. */
    method Split(a: nat) returns (b: nat)
      requires a in chunks && a + chunks[a].size / 2 !in chunks
      modifies this
      ensures View() == SplitOnce(old(View()), a) && b == a + old(chunks)[a].size / 2
    {
      var half := chunks[a].size / 2;
      RemoveFromFreeList(a);
      SetSize(a, half);
      AddToFreeList(a);
      b := a + half;
      AddChunk(b, half);
    }

    /** Subdivide chunk a, then its upper half, until a chunk of the wanted size is reached. */
    method SplitTo(first: nat, alloc: nat) returns (a: nat)
      requires Valid(View()) && first in chunks && !chunks[first].inUse
      requires IsPow2(alloc) && alloc <= chunks[first].size
      modifies this
      ensures (View(), a) == SplitDown(old(View()), first, alloc)
    {
      hide Valid, SplitOnce;
      ValidPow2(View(), first);
      a := first;
      var chunkSize := chunks[a].size;
      while chunkSize > alloc
        invariant a in chunks && chunkSize == chunks[a].size && chunkSize >= alloc && !chunks[a].inUse
        invariant Valid(View()) && IsPow2(chunkSize)
        invariant SplitDown(View(), a, alloc) == SplitDown(old(View()), first, alloc)
      {
        Gap(alloc, chunkSize);
        Half(chunkSize);
        SplitOnceValid(View(), a);
        SplitDownUnfold(View(), a, alloc);
        chunkSize := chunkSize / 2;
        a := Split(a);
      }
    }

    method TryMergeBuddyRecursive(a: nat)
      requires a in chunks && IsPow2(chunks[a].size)
      modifies this
      ensures View() == MergeUp(old(View()), a)
      decreases |chunks|
    {
      var s := chunks[a].size;
      var buddy := Xor(a, s);
      if buddy in chunks && chunks[buddy].size == s && !chunks[buddy].inUse {
        MergeUpUnfold(View(), a);
        BuddyAdjacent(chunks, a);
        ghost var h := View();
        var lower, higher := if a < buddy then a else buddy, if a < buddy then buddy else a;
        RemoveFromFreeList(higher);
        chunks := chunks - {higher};
        RemoveFromFreeList(lower);
        SetSize(lower, 2 * chunks[lower].size);
        AddToFreeList(lower);
        assert View() == MergeOnce(h, a);
        TryMergeBuddyRecursive(lower);
      }
    }

    // ---------- Public operations ----------

    constructor (base: int, size: nat)
      requires size >= 1 && AtMost2To(size, 63)
      ensures this.base == base && View() == InitialHeap(size)
      ensures Valid(View()) && Live(chunks) == {}
    {
      hide Carved, FirstChunk, NextLargestPowerOf2, And, Carve, CarveOnce, Sizes, InitialHeap, AtMost2To, Valid;
      this.base := base;
      this.size := size;
      chunks := map[];
      lists := map[];
      new;
      CarveStart(size);
      var left, offset := size, 0;
      while left > 0
        invariant offset + left == size && AtMost2To(left, 63) && Carved(View(), offset)
        invariant Carve(View(), offset, Sizes(left)) == InitialHeap(size)
      {
        FirstChunkIs(left);
        CarveNext(View(), offset, left);
        var s := left;
        if And(left, left - 1) != 0 { s := NextLargestPowerOf2(left / 2); }
        assert s == FirstChunk(left);
        AddChunk(offset, s);
        left := left - s;
        offset := offset + s;
      }
      CarveEnd(View(), offset);
      InitialValid(size);
    }

    /** The address of the new block, or nothing when the allocator throws; then nothing has changed. */
    method Malloc(n: nat) returns (r: Option<int>)
      requires Valid(View()) && n >= 1 && AtMost2To(n, 62)
      modifies this
      ensures Valid(View())
      ensures r.None? ==> View() == old(View())
      ensures r.None? <==> forall a :: a in old(chunks) && !old(chunks)[a].inUse ==> old(chunks)[a].size < NextLargestPowerOf2(n)
      ensures r.Some? ==> r.value >= base && !InUse(old(chunks), r.value - base)
      ensures r.Some? ==> Live(chunks) == old(Live(chunks)) + {Block(r.value - base, NextLargestPowerOf2(n))}
      ensures Sound(old(View()))
      ensures Allocator.Malloc(old(View()), n) == if r.None? then None else Some((View(), r.value - base))
    {
      ghost var h := View();
      ValidSound(h);
      NextLargestIsLeast(n);
      var alloc := NextLargestPowerOf2(n);
      FitsIff(h, alloc);
      var flit := LowerBoundKey(alloc);
      if flit.None? { return None; }
      var a := lists[flit.value][0];
      assert a == Chosen(h, alloc);
      ChosenBestFits(h, alloc);
      MallocUnfold(h, n);
      a := SplitTo(a, alloc);
      RemoveFromFreeList(a);
      MallocEffect(h, n, View(), a);
      r := Some(base + a);
    }

    method Free(address: int)
      requires Valid(View()) && address >= base && InUse(chunks, address - base)
      modifies this
      ensures Valid(View())
      ensures Live(chunks) == old(Live(chunks)) - {Block(address - base, old(chunks)[address - base].size)}
      ensures IsPow2(old(chunks)[address - base].size) && View() == Allocator.Free(old(View()), address - base)
    {
      ghost var h := View();
      FreeContract(h, address - base);
      AddToFreeList(address - base);
      TryMergeBuddyRecursive(address - base);
    }

    method TotalBytes() returns (total: nat)
      requires Valid(View())
      ensures total == size
    {
      total := 0;
      var keys := chunks.Keys;
      ghost var done := {};
      while keys != {}
        invariant keys <= chunks.Keys && done == chunks.Keys - keys
        invariant total == Total(Blocks(chunks, done))
        decreases keys
      {
        var a :| a in keys;
        BlocksWith(chunks, done, a);
        keys, done := keys - {a}, done + {a};
        total := total + chunks[a].size;
      }
      assert done == chunks.Keys;
      TotalsAgree(View());
    }

    method TotalBytesInUse() returns (total: nat)
      ensures total == Total(Live(chunks))
    {
      NoBlocks(chunks);
      hide Valid, Blocks, Total, Live;
      total := 0;
      var keys := chunks.Keys;
      ghost var done := {};
      while keys != {}
        invariant keys <= chunks.Keys && done == UsedSet(chunks) - keys
        invariant total == Total(Blocks(chunks, done))
        decreases keys
      {
        var a :| a in keys;
        keys := keys - {a};
        if chunks[a].inUse {
          BlocksWith(chunks, done, a);
          done := done + {a};
          total := total + chunks[a].size;
        }
      }
      assert done == UsedSet(chunks);
      UsedBlocks(chunks);
    }

    method TotalBytesFree() returns (total: nat)
      requires Valid(View())
      ensures total + Total(Live(chunks)) == size
    {
      NoBlocks(chunks);
      hide Valid, Blocks, Total, Live;
      total := 0;
      var keys := chunks.Keys;
      ghost var done := {};
      while keys != {}
        invariant keys <= chunks.Keys && done == FreeSet(chunks) - keys
        invariant total == Total(Blocks(chunks, done))
        decreases keys
      {
        var a :| a in keys;
        keys := keys - {a};
        if !chunks[a].inUse {
          BlocksWith(chunks, done, a);
          done := done + {a};
          total := total + chunks[a].size;
        }
      }
      assert done == FreeSet(chunks);
      TotalsAgree(View());
    }
  }

  lemma FirstChunkIs(n: nat)
    requires n >= 1
    ensures FirstChunk(n) == if And(n, n - 1) != 0 then NextLargestPowerOf2(n / 2) else n
    ensures And(n, n - 1) != 0 ==> n >= 2
  {
  }

  lemma CarveStart(n: nat)
    requires AtMost2To(n, 63)
    ensures Carved(Heap(n, map[], map[]), 0) && Carve(Heap(n, map[], map[]), 0, Sizes(n)) == InitialHeap(n)
  {
  }

  lemma CarveEnd(h: Heap, o: nat)
    requires AtMost2To(0, 63)
    ensures Carve(h, o, Sizes(0)) == h
  {
  }

  lemma CarveNext(h: Heap, o: nat, n: nat)
    requires n >= 1 && AtMost2To(n, 63) && Carved(h, o)
    ensures var s := FirstChunk(n);
      && 1 <= s <= n && o !in h.chunks && AtMost2To(n - s, 63) && Carved(CarveOnce(h, o, s), o + s)
      && Carve(h, o, Sizes(n)) == Carve(CarveOnce(h, o, s), o + s, Sizes(n - s))
  {
    hide Carved, FirstChunk, CarveOnce;
    FirstChunkFits(n);
    AtMostLess(n - FirstChunk(n), n, 63);
    CarveOnceCarved(h, o, FirstChunk(n));
    assert Sizes(n)[1..] == Sizes(n - FirstChunk(n));
  }
}
