/**
 How a cache request over a linear range is cut into messages, one for every block it
 touches, and how the bytes of a piece, contiguous in the memory of one core, are the
 bytes of the global range.
 */
module CachePieces {
  import opened Bits
  import opened Addressing

  /** One message: request_bytes bytes at a linear address, for the buffer at offset. */
  datatype Piece = Piece(addr: nat, offset: nat, bytes: nat)

  // ---------- The send loop and the message count ----------

  function PieceBytes(addr: nat, left: nat): nat {
    var toBoundary := BlockMax(addr, 1) - addr;
    if toBoundary > left then left else toBoundary
  }

  /** The messages that the loop sends from offset on. */
  function Pieces(addr: nat, offset: nat, total: nat): seq<Piece>
    requires offset <= total
    decreases total - offset
  {
    if offset == total then []
    else
      var bytes := PieceBytes(addr, total - offset);
      [Piece(addr, offset, bytes)] + Pieces(addr + bytes, offset + bytes, total)
  }

  /** The count that the request computes beforehand from its first and its last byte. */
  function NumMessages(addr: nat, size: nat, count: nat): int
    requires size >= 1 && count >= 1
  {
    var lastByte := addr + (count - 1) * size + size - 1;
    (BlockMax(lastByte, 1) - BlockMin(addr)) / BLOCK_SIZE
  }

  /** How many blocks total bytes from addr on reach into. */
  function BlocksTouched(addr: nat, total: nat): int
    requires total >= 1
  {
    (addr + total - 1) / BLOCK_SIZE - addr / BLOCK_SIZE + 1
  }

  lemma {:induction false} PiecesCount(addr: nat, offset: nat, total: nat)
    requires offset < total
    ensures |Pieces(addr, offset, total)| == BlocksTouched(addr, total - offset)
    decreases total - offset
  {
    var bytes := PieceBytes(addr, total - offset);
    BlocksTouchedNext(addr, total - offset);
    hide PieceBytes, BlocksTouched;
    if offset + bytes < total {
      PiecesCount(addr + bytes, offset + bytes, total);
    }
  }

  lemma BlocksTouchedNext(addr: nat, left: nat)
    requires left >= 1
    ensures var bytes := PieceBytes(addr, left);
      && 1 <= bytes <= left
      && BlocksTouched(addr, left) == 1 + if bytes == left then 0 else BlocksTouched(addr + bytes, left - bytes)
  {
    assert BlockMax(addr, 1) - addr == BLOCK_SIZE - addr % BLOCK_SIZE;
  }

  lemma BytesMul(size: nat, count: nat)
    requires size >= 1 && count >= 1
    ensures (count - 1) * size + size == count * size && count * size >= 1
  {
  }

  /** The loop sends exactly as many messages as the request expects replies. */
  lemma SendsWhatItExpects(addr: nat, size: nat, count: nat)
    requires size >= 1 && count >= 1
    ensures |Pieces(addr, 0, count * size)| == NumMessages(addr, size, count)
  {
    BytesMul(size, count);
    PiecesCount(addr, 0, count * size);
  }

  // ---------- The pieces tile the range ----------

  /** The pieces are not empty, stay within one block, and follow one another from offset to total. */
  predicate Chained(pieces: seq<Piece>, addr: nat, offset: nat, total: nat)
    decreases |pieces|
  {
    if pieces == [] then offset == total
    else
      && pieces[0].addr == addr && pieces[0].offset == offset && pieces[0].bytes >= 1
      && addr % BLOCK_SIZE + pieces[0].bytes <= BLOCK_SIZE
      && Chained(pieces[1..], addr + pieces[0].bytes, offset + pieces[0].bytes, total)
  }

  lemma {:induction false} PiecesChained(addr: nat, offset: nat, total: nat)
    requires offset <= total
    ensures Chained(Pieces(addr, offset, total), addr, offset, total)
    decreases total - offset
  {
    if offset < total {
      var bytes := PieceBytes(addr, total - offset);
      PiecesChained(addr + bytes, offset + bytes, total);
      var rest := Pieces(addr + bytes, offset + bytes, total);
      assert ([Piece(addr, offset, bytes)] + rest)[1..] == rest;
    }
  }

  lemma {:induction false} PieceWithin(pieces: seq<Piece>, addr: nat, offset: nat, total: nat, i: nat)
    requires Chained(pieces, addr, offset, total) && i < |pieces|
    ensures var p := pieces[i];
      && p.bytes >= 1 && p.addr % BLOCK_SIZE + p.bytes <= BLOCK_SIZE
      && offset <= p.offset && p.offset + p.bytes <= total && p.addr - addr == p.offset - offset
    decreases |pieces|
  {
    if i > 0 {
      PieceWithin(pieces[1..], addr + pieces[0].bytes, offset + pieces[0].bytes, total, i - 1);
    } else if |pieces| > 1 {
      PieceWithin(pieces[1..], addr + pieces[0].bytes, offset + pieces[0].bytes, total, 0);
    }
  }

  lemma {:induction false} PiecesApart(pieces: seq<Piece>, addr: nat, offset: nat, total: nat, i: nat, j: nat)
    requires Chained(pieces, addr, offset, total) && i < j < |pieces|
    ensures pieces[i].offset + pieces[i].bytes <= pieces[j].offset
    decreases |pieces|
  {
    var rest, a, o := pieces[1..], addr + pieces[0].bytes, offset + pieces[0].bytes;
    if i > 0 {
      PiecesApart(rest, a, o, total, i - 1, j - 1);
    } else {
      PieceWithin(rest, a, o, total, j - 1);
    }
  }

  /** Every byte of the range is in some piece. */
  lemma {:induction false} PieceOf(pieces: seq<Piece>, addr: nat, offset: nat, total: nat, k: nat) returns (i: nat)
    requires Chained(pieces, addr, offset, total) && offset <= k < total
    ensures i < |pieces| && pieces[i].offset <= k < pieces[i].offset + pieces[i].bytes
    decreases |pieces|
  {
    if k < offset + pieces[0].bytes {
      i := 0;
    } else {
      i := PieceOf(pieces[1..], addr + pieces[0].bytes, offset + pieces[0].bytes, total, k);
      i := i + 1;
    }
  }

  // ---------- Memory ----------

  /** A byte's place: a core and a pointer into its memory. */
  datatype Place = Place(core: nat, ptr: int)

  type Memory = map<Place, int>

  function PlaceOf(m: Machine, g: nat): Place
    requires Wf(m)
  {
    Place(CoreOf(m, g), Pointer(m, g))
  }

  lemma PlacesDiffer(m: Machine, g: nat, g': nat)
    requires Wf(m) && PlaceOf(m, g) == PlaceOf(m, g')
    ensures g == g'
  {
    PointerRoundTrip(m, g);
    PointerRoundTrip(m, g');
  }

  /** Within a block, global neighbours are neighbours in the memory of one core. */
  lemma Neighbours(m: Machine, g: nat, k: nat)
    requires Wf(m) && g % BLOCK_SIZE + k < BLOCK_SIZE
    ensures PlaceOf(m, g + k) == Place(CoreOf(m, g), Pointer(m, g) + k)
  {
    assert (g + k) / BLOCK_SIZE == g / BLOCK_SIZE;
  }

  /** Memory that was never written reads as 0. */
  function Read(mem: Memory, x: Place): int {
    if x in mem then mem[x] else 0
  }

  function GlobalByte(m: Machine, mem: Memory, g: nat): int
    requires Wf(m)
  {
    Read(mem, PlaceOf(m, g))
  }

  /** n bytes of a core's memory: the payload of an acquire reply. */
  function LocalBytes(mem: Memory, core: nat, ptr: int, n: nat): seq<int> {
    seq(n, k => Read(mem, Place(core, ptr + k)))
  }

  /** The bytes of a linear range. */
  function GlobalBytes(m: Machine, mem: Memory, g: nat, n: nat): seq<int>
    requires Wf(m)
  {
    seq(n, k requires k >= 0 => GlobalByte(m, mem, g + k))
  }

  /** A piece, read from the memory of its core, is that part of the global range. */
  lemma PieceBytesRead(m: Machine, mem: Memory, addr: nat, total: nat, p: Piece)
    requires Wf(m)
    requires p.addr == addr + p.offset && p.offset + p.bytes <= total && p.addr % BLOCK_SIZE + p.bytes <= BLOCK_SIZE
    ensures LocalBytes(mem, CoreOf(m, p.addr), Pointer(m, p.addr), p.bytes) ==
      GlobalBytes(m, mem, addr, total)[p.offset..p.offset + p.bytes]
  {
    var local := LocalBytes(mem, CoreOf(m, p.addr), Pointer(m, p.addr), p.bytes);
    var all := GlobalBytes(m, mem, addr, total);
    var global := all[p.offset..p.offset + p.bytes];
    forall k | 0 <= k < |local| ensures local[k] == global[k] {
      Neighbours(m, p.addr, k);
      assert addr + (p.offset + k) == p.addr + k;
      assert global[k] == all[p.offset + k] == GlobalByte(m, mem, addr + (p.offset + k));
    }
  }

  /** memcpy into a core's memory: what a release request does. */
  function Written(mem: Memory, core: nat, ptr: int, payload: seq<int>): Memory
    decreases |payload|
  {
    if payload == [] then mem
    else Written(mem[Place(core, ptr) := payload[0]], core, ptr + 1, payload[1..])
  }

  /** The places that writing n bytes at ptr of a core reaches. */
  predicate Reached(core: nat, ptr: int, n: nat, x: Place) {
    x.core == core && ptr <= x.ptr < ptr + n
  }

  lemma {:induction false} WrittenAt(mem: Memory, core: nat, ptr: int, payload: seq<int>, x: Place)
    ensures Read(Written(mem, core, ptr, payload), x) ==
      if Reached(core, ptr, |payload|, x) then payload[x.ptr - ptr] else Read(mem, x)
    decreases |payload|
  {
    if payload != [] {
      WrittenAt(mem[Place(core, ptr) := payload[0]], core, ptr + 1, payload[1..], x);
    }
  }

  /** A place reached by writing a piece is the place of one of the piece's bytes. */
  lemma ReachedIsInPiece(m: Machine, p: Piece, x: Place)
    requires Wf(m) && p.addr % BLOCK_SIZE + p.bytes <= BLOCK_SIZE
    ensures Reached(CoreOf(m, p.addr), Pointer(m, p.addr), p.bytes, x) <==>
      exists y: nat :: p.addr <= y < p.addr + p.bytes && x == PlaceOf(m, y)
  {
    if Reached(CoreOf(m, p.addr), Pointer(m, p.addr), p.bytes, x) {
      var k := x.ptr - Pointer(m, p.addr);
      Neighbours(m, p.addr, k);
      assert x == PlaceOf(m, p.addr + k);
    }
    forall y: nat | p.addr <= y < p.addr + p.bytes && x == PlaceOf(m, y)
      ensures Reached(CoreOf(m, p.addr), Pointer(m, p.addr), p.bytes, x)
    {
      Neighbours(m, p.addr, y - p.addr);
    }
  }
}
