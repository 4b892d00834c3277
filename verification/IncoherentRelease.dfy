/**
 Releasing a cache: the buffer goes out block by block, the owners write it and
 acknowledge, in any order.  The release completes exactly when all acknowledgements
 have arrived; then the global range holds the buffer and nothing else has changed,
 and a later acquire of the range brings the same bytes back.
 */
module IncoherentRelease {
  import opened Bits
  import opened Addressing
  import opened CachePieces
  import Acquire = IncoherentAcquire

  type Request = Acquire.Request

  datatype Releaser = Releaser(started: bool, released: bool, thread: bool, numMessages: int, responses: int)

  function ReleaserReset(r: Request): Releaser
    requires r.size >= 1
  {
    if r.count == 0 then Releaser(true, true, false, 0, 0)
    else Releaser(false, false, false, NumMessages(r.addr, r.size, r.count), 0)
  }

  function Acknowledged(a: Releaser): Releaser {
    a.(responses := a.responses + 1, released := a.released || a.responses + 1 == a.numMessages)
  }

  // ---------- The object ----------

  class IncoherentReleaser {
    const request: Request
    var started: bool
    var released: bool
    var thread: bool
    var numMessages: int
    var responses: int

    ghost function View(): Releaser
      reads this
    {
      Releaser(started, released, thread, numMessages, responses)
    }

    /** Ready for its request: it will expect as many acknowledgements as it has pieces to send, unless there are none. */
    ghost predicate Ready()
      reads this
    {
      var pieces := Acquire.PiecesFor(request);
      (started <==> pieces == []) && (released <==> pieces == []) && !thread && numMessages == |pieces| && responses == 0
    }

    constructor (request: Request)
      requires request.size >= 1
      ensures this.request == request && View() == ReleaserReset(request) && Ready()
    {
      this.request := request;
      started, released := false, false;
      new;
      Reset();
    }

    method Reset()
      requires request.size >= 1 && (!started || released)
      modifies this
      ensures View() == ReleaserReset(request) && Ready()
    {
      Acquire.ResetIsReady(request);
      started, released, thread := false, false, false;
      numMessages, responses := 0, 0;
      if request.count == 0 {
        started, released := true, true;
      } else {
        var last := request.addr + (request.count - 1) * request.size + request.size - 1;
        var byteDiff := BlockMax(last, 1) - BlockMin(request.addr);
        numMessages := byteDiff / BLOCK_SIZE;
      }
    }

    /** Send the buffer, unless it is on its way. */
    method StartRelease() returns (sent: seq<Piece>)
      modifies this`started
      ensures started && sent == if old(started) then [] else Acquire.PiecesFor(request)
    {
      sent := [];
      if !started {
        started := true;
        sent := DoRelease();
      }
    }

    /** Up to the suspension: the pieces are sent if they were not, and the worker suspends if replies are missing. */
    method BlockUntilReleased() returns (sent: seq<Piece>, suspends: bool)
      modifies this`started, this`thread
      ensures sent == if old(started) || released then [] else Acquire.PiecesFor(request)
      ensures suspends == !released && started == (old(started) || !released) && thread == (old(thread) || suspends)
    {
      sent, suspends := [], false;
      if !released {
        sent := StartRelease();
        thread, suspends := true, true;
      }
    }

    method DoRelease() returns (sent: seq<Piece>)
      ensures sent == Acquire.PiecesFor(request)
    {
      var totalBytes := request.count * request.size;
      var addr: nat, offset: nat, bytes := request.addr, 0, 0;
      sent := [];
      assert sent + Pieces(addr, offset, totalBytes) == Acquire.PiecesFor(request);
      while offset < totalBytes
        invariant offset <= totalBytes && sent + Pieces(addr, offset, totalBytes) == Acquire.PiecesFor(request)
        decreases totalBytes - offset
      {
        bytes := BlockMax(addr, 1) - addr;
        if bytes > totalBytes - offset { bytes := totalBytes - offset; }
        assert bytes == PieceBytes(addr, totalBytes - offset);
        sent := sent + [Piece(addr, offset, bytes)];
        addr, offset := addr + bytes, offset + bytes;
      }
    }

    method ReleaseReply() returns (wake: bool)
      modifies this
      ensures View() == Acknowledged(old(View()))
      ensures wake <==> old(responses) + 1 == numMessages && thread
    {
      responses := responses + 1;
      wake := false;
      if responses == numMessages {
        released := true;
        wake := thread;
      }
    }
  }

  /** A cache that is used again: reset, then block.  Whatever happened before, every piece is sent. */
  method ReleaseAnew(o: IncoherentReleaser) returns (sent: seq<Piece>)
    requires o.request.size >= 1 && (!o.started || o.released)
    modifies o
    ensures sent == Acquire.PiecesFor(o.request) && o.numMessages == |sent| && o.responses == 0
    ensures (o.released <==> sent == []) && (o.thread <==> sent != [])
  {
    o.Reset();
    var suspends: bool;
    sent, suspends := o.BlockUntilReleased();
  }

  // ---------- All interleavings ----------

  /** Where a piece is: not issued, in the send loop, on its way to the owner, written and acknowledged, or its reply taken in. */
  datatype Stage = Unsent | Issued | Sent | Stored | Acked

  datatype Sys = Sys(a: Releaser, stages: seq<Stage>, mem: Memory, suspended: bool)

  datatype Step = Start | Send(i: nat) | Serve(i: nat) | Arrive(i: nat) | Suspend

  predicate Shape(r: Request, data: seq<int>, s: Sys) {
    |s.stages| == |Acquire.PiecesFor(r)| && |data| == Acquire.TotalBytes(r)
  }

  predicate Init(r: Request, data: seq<int>, s: Sys)
    requires r.size >= 1
  {
    && Shape(r, data, s) && s.a == ReleaserReset(r) && !s.suspended
    && forall i :: 0 <= i < |s.stages| ==> s.stages[i] == Unsent
  }

  predicate Enabled(s: Sys, step: Step) {
    match step
    case Start => !s.a.started
    case Send(i) => i < |s.stages| && s.stages[i] == Issued && forall j :: 0 <= j < i ==> s.stages[j] != Issued
    case Serve(i) => i < |s.stages| && s.stages[i] == Sent
    case Arrive(i) => i < |s.stages| && s.stages[i] == Stored
    case Suspend =>
      s.a.started && !s.a.released && !s.suspended && forall j :: 0 <= j < |s.stages| ==> s.stages[j] != Issued
  }

  /** The payload that carries piece p of the buffer. */
  function Payload(data: seq<int>, p: Piece): seq<int> {
    if p.offset + p.bytes <= |data| then Acquire.Part(data, p) else []
  }

  function Apply(m: Machine, r: Request, data: seq<int>, s: Sys, step: Step): (s': Sys)
    requires Wf(m) && Shape(r, data, s) && Enabled(s, step)
    ensures Shape(r, data, s')
  {
    match step
    case Start => s.(a := s.a.(started := true), stages := seq(|s.stages|, _ => Issued))
    case Send(i) => s.(stages := s.stages[i := Sent])
    case Serve(i) =>
      var p := Acquire.PiecesFor(r)[i];
      s.(stages := s.stages[i := Stored],
         mem := Written(s.mem, CoreOf(m, p.addr), Pointer(m, p.addr), Payload(data, p)))
    case Arrive(i) =>
      var wake := s.a.responses + 1 == s.a.numMessages && s.a.thread;
      s.(a := Acknowledged(s.a), stages := s.stages[i := Acked], suspended := s.suspended && !wake)
    case Suspend => s.(a := s.a.(thread := true), suspended := true)
  }

  ghost predicate Run(m: Machine, r: Request, data: seq<int>, s: Sys, steps: seq<Step>, s': Sys)
    requires Wf(m) && Shape(r, data, s)
    decreases |steps|
  {
    if steps == [] then s' == s
    else Enabled(s, steps[0]) && Run(m, r, data, Apply(m, r, data, s, steps[0]), steps[1..], s')
  }

  // ---------- The invariant ----------

  function CountAcked(stages: seq<Stage>): nat {
    if stages == [] then 0 else CountAcked(stages[1..]) + if stages[0].Acked? then 1 else 0
  }

  lemma {:induction false} AckedUpdate(stages: seq<Stage>, i: nat, st: Stage)
    requires i < |stages| && !stages[i].Acked?
    ensures CountAcked(stages[i := st]) == CountAcked(stages) + if st.Acked? then 1 else 0
    decreases |stages|
  {
    if i > 0 {
      AckedUpdate(stages[1..], i - 1, st);
      assert stages[i := st][1..] == stages[1..][i - 1 := st];
    } else {
      assert stages[i := st][1..] == stages[1..];
    }
  }

  lemma {:induction false} AckedAll(stages: seq<Stage>)
    ensures CountAcked(stages) <= |stages|
    ensures CountAcked(stages) == |stages| <==> forall i :: 0 <= i < |stages| ==> stages[i].Acked?
    decreases |stages|
  {
    if stages != [] {
      AckedAll(stages[1..]);
      assert stages == [stages[0]] + stages[1..];
    }
  }

  lemma {:induction false} AckedNone(stages: seq<Stage>)
    requires forall i :: 0 <= i < |stages| ==> !stages[i].Acked?
    ensures CountAcked(stages) == 0
    decreases |stages|
  {
    if stages != [] { AckedNone(stages[1..]); }
  }

  /** The i-th piece has been written. */
  predicate IsStored(stages: seq<Stage>, i: nat) {
    i < |stages| && (stages[i].Stored? || stages[i].Acked?)
  }

  /** Byte y of the range lies in the i-th piece. */
  predicate InPiece(pieces: seq<Piece>, i: nat, y: nat) {
    i < |pieces| && pieces[i].addr <= y < pieces[i].addr + pieces[i].bytes
  }

  /** x is the place of no byte of the range. */
  ghost predicate Outside(m: Machine, addr: nat, total: nat, x: Place)
    requires Wf(m)
  {
    forall y: nat :: addr <= y < addr + total ==> x != PlaceOf(m, y)
  }

  /** Written pieces hold the data, all other bytes what they held before. */
  ghost predicate MemoryOk(m: Machine, addr: nat, data: seq<int>, pieces: seq<Piece>, stages: seq<Stage>,
                           mem0: Memory, mem: Memory)
    requires Wf(m)
  {
    && (forall i: nat, y: nat :: InPiece(pieces, i, y) && 0 <= y - addr < |data| ==>
          GlobalByte(m, mem, y) == if IsStored(stages, i) then data[y - addr] else GlobalByte(m, mem0, y))
    && (forall x :: Outside(m, addr, |data|, x) ==> Read(mem, x) == Read(mem0, x))
  }

  ghost predicate Inv(m: Machine, r: Request, data: seq<int>, mem0: Memory, s: Sys)
    requires Wf(m)
  {
    && Shape(r, data, s)
    && s.a.numMessages == |s.stages| && s.a.responses == CountAcked(s.stages)
    && (s.a.released <==> s.a.responses == s.a.numMessages)
    && (s.suspended ==> s.a.thread && !s.a.released)
    && MemoryOk(m, r.addr, data, Acquire.PiecesFor(r), s.stages, mem0, s.mem)
    && StartOk(s.a.started, s.stages)
  }

  /** All pieces are issued once the release has been started, and none before. */
  predicate StartOk(started: bool, stages: seq<Stage>) {
    forall i :: 0 <= i < |stages| ==> (stages[i] == Unsent <==> !started)
  }

  lemma InitInv(m: Machine, r: Request, data: seq<int>, s: Sys)
    requires Wf(m) && r.size >= 1 && Init(r, data, s)
    ensures Inv(m, r, data, s.mem, s)
  {
    AckedNone(s.stages);
    Acquire.ResetIsReady(r);
  }

  lemma PieceFacts(r: Request, i: nat)
    requires i < |Acquire.PiecesFor(r)|
    ensures var p := Acquire.PiecesFor(r)[i];
      && p.addr == r.addr + p.offset && p.offset + p.bytes <= Acquire.TotalBytes(r)
      && p.addr % BLOCK_SIZE + p.bytes <= BLOCK_SIZE
    ensures forall j: nat, y: nat :: InPiece(Acquire.PiecesFor(r), i, y) && InPiece(Acquire.PiecesFor(r), j, y) ==> i == j
  {
    var pieces, total := Acquire.PiecesFor(r), Acquire.TotalBytes(r);
    Acquire.RequestChained(r);
    PieceWithin(pieces, r.addr, 0, total, i);
    forall j: nat, y: nat | InPiece(pieces, i, y) && InPiece(pieces, j, y) ensures i == j {
      PieceWithin(pieces, r.addr, 0, total, j);
      if i < j { PiecesApart(pieces, r.addr, 0, total, i, j); }
      if j < i { PiecesApart(pieces, r.addr, 0, total, j, i); }
    }
  }

  /** Writing a piece changes its bytes to the data, and no other place. */
  lemma StoreByte(m: Machine, addr: nat, data: seq<int>, p: Piece, mem: Memory, y: nat)
    requires Wf(m) && p.addr == addr + p.offset && p.offset + p.bytes <= |data| && p.addr % BLOCK_SIZE + p.bytes <= BLOCK_SIZE
    ensures var mem' := Written(mem, CoreOf(m, p.addr), Pointer(m, p.addr), Payload(data, p));
      GlobalByte(m, mem', y) == if p.addr <= y < p.addr + p.bytes then data[y - addr] else GlobalByte(m, mem, y)
  {
    var core, ptr, payload := CoreOf(m, p.addr), Pointer(m, p.addr), Payload(data, p);
    WrittenAt(mem, core, ptr, payload, PlaceOf(m, y));
    ReachedIsInPiece(m, p, PlaceOf(m, y));
    if p.addr <= y < p.addr + p.bytes {
      Neighbours(m, p.addr, y - p.addr);
    } else if Reached(core, ptr, p.bytes, PlaceOf(m, y)) {
      var z: nat :| p.addr <= z < p.addr + p.bytes && PlaceOf(m, y) == PlaceOf(m, z);
      PlacesDiffer(m, y, z);
    }
  }

  lemma StoreOutside(m: Machine, addr: nat, data: seq<int>, p: Piece, mem: Memory, x: Place)
    requires Wf(m) && p.addr == addr + p.offset && p.offset + p.bytes <= |data| && p.addr % BLOCK_SIZE + p.bytes <= BLOCK_SIZE
    requires Outside(m, addr, |data|, x)
    ensures Read(Written(mem, CoreOf(m, p.addr), Pointer(m, p.addr), Payload(data, p)), x) == Read(mem, x)
  {
    WrittenAt(mem, CoreOf(m, p.addr), Pointer(m, p.addr), Payload(data, p), x);
    ReachedIsInPiece(m, p, x);
  }

  lemma StoreOk(m: Machine, r: Request, data: seq<int>, stages: seq<Stage>, mem0: Memory, mem: Memory, i: nat)
    requires Wf(m) && |stages| == |Acquire.PiecesFor(r)| && |data| == Acquire.TotalBytes(r) && i < |stages|
    requires MemoryOk(m, r.addr, data, Acquire.PiecesFor(r), stages, mem0, mem)
    ensures var p := Acquire.PiecesFor(r)[i];
      MemoryOk(m, r.addr, data, Acquire.PiecesFor(r), stages[i := Stored], mem0,
               Written(mem, CoreOf(m, p.addr), Pointer(m, p.addr), Payload(data, p)))
  {
    hide Written, Payload, CoreOf, Pointer, GlobalByte, Read, Acquire.PiecesFor;
    var pieces := Acquire.PiecesFor(r);
    var p := pieces[i];
    var mem' := Written(mem, CoreOf(m, p.addr), Pointer(m, p.addr), Payload(data, p));
    PieceFacts(r, i);
    forall j: nat, y: nat | InPiece(pieces, j, y) && 0 <= y - r.addr < |data|
      ensures GlobalByte(m, mem', y) == if IsStored(stages[i := Stored], j) then data[y - r.addr] else GlobalByte(m, mem0, y)
    {
      StoreByte(m, r.addr, data, p, mem, y);
      assert InPiece(pieces, i, y) ==> i == j;
    }
    forall x | Outside(m, r.addr, |data|, x) ensures Read(mem', x) == Read(mem0, x) {
      hide Outside;
      StoreOutside(m, r.addr, data, p, mem, x);
    }
  }

  lemma SameStored(m: Machine, addr: nat, data: seq<int>, pieces: seq<Piece>, stages: seq<Stage>, i: nat, st: Stage,
                   mem0: Memory, mem: Memory)
    requires Wf(m) && i < |stages| && MemoryOk(m, addr, data, pieces, stages, mem0, mem)
    requires IsStored(stages, i) <==> st.Stored? || st.Acked?
    ensures MemoryOk(m, addr, data, pieces, stages[i := st], mem0, mem)
  {
    hide GlobalByte, Read, Outside;
    assert forall j: nat :: IsStored(stages[i := st], j) <==> IsStored(stages, j);
  }

  lemma StartStages(m: Machine, addr: nat, data: seq<int>, pieces: seq<Piece>, stages: seq<Stage>, mem0: Memory, mem: Memory)
    requires Wf(m) && MemoryOk(m, addr, data, pieces, stages, mem0, mem) && StartOk(false, stages)
    ensures var issued := seq(|stages|, _ => Issued);
      && MemoryOk(m, addr, data, pieces, issued, mem0, mem) && StartOk(true, issued)
      && CountAcked(issued) == CountAcked(stages)
  {
    hide GlobalByte, Read, Outside;
    var issued := seq(|stages|, _ => Issued);
    AckedNone(stages);
    AckedNone(issued);
    assert forall j: nat :: IsStored(issued, j) <==> IsStored(stages, j);
  }

  lemma StepInv(m: Machine, r: Request, data: seq<int>, mem0: Memory, s: Sys, step: Step)
    requires Wf(m) && Inv(m, r, data, mem0, s) && Enabled(s, step)
    ensures Inv(m, r, data, mem0, Apply(m, r, data, s, step))
  {
    hide MemoryOk, Acquire.PiecesFor, Acquire.TotalBytes, Written, Payload, CountAcked;
    var pieces := Acquire.PiecesFor(r);
    match step
    case Start => StartStages(m, r.addr, data, pieces, s.stages, mem0, s.mem);
    case Send(i) =>
      AckedUpdate(s.stages, i, Sent);
      SameStored(m, r.addr, data, pieces, s.stages, i, Sent, mem0, s.mem);
    case Serve(i) =>
      AckedUpdate(s.stages, i, Stored);
      StoreOk(m, r, data, s.stages, mem0, s.mem, i);
    case Arrive(i) =>
      AckedUpdate(s.stages, i, Acked);
      AckedAll(s.stages[i := Acked]);
      SameStored(m, r.addr, data, pieces, s.stages, i, Acked, mem0, s.mem);
    case Suspend =>
  }

  lemma {:induction false} RunInv(m: Machine, r: Request, data: seq<int>, mem0: Memory, s: Sys, steps: seq<Step>, s': Sys)
    requires Wf(m) && Inv(m, r, data, mem0, s) && Shape(r, data, s) && Run(m, r, data, s, steps, s')
    ensures Inv(m, r, data, mem0, s')
    decreases |steps|
  {
    hide Inv, Apply, Enabled;
    if steps != [] {
      StepInv(m, r, data, mem0, s, steps[0]);
      RunInv(m, r, data, mem0, Apply(m, r, data, s, steps[0]), steps[1..], s');
    }
  }

  // ---------- What a release promises ----------

  /**
   In every interleaving the release is complete exactly when every acknowledgement has
   arrived; then the range holds the buffer, every place outside the range holds what it
   held before, and the worker is not left suspended.
   */
  lemma ReleaseCorrect(m: Machine, r: Request, data: seq<int>, s: Sys, steps: seq<Step>, s': Sys)
    requires Wf(m) && r.size >= 1 && Init(r, data, s) && Run(m, r, data, s, steps, s')
    ensures s'.a.released <==> forall i :: 0 <= i < |s'.stages| ==> s'.stages[i].Acked?
    ensures s'.a.released ==> GlobalBytes(m, s'.mem, r.addr, |data|) == data && !s'.suspended
    ensures forall x :: Outside(m, r.addr, |data|, x) ==> Read(s'.mem, x) == Read(s.mem, x)
  {
    hide Acquire.PiecesFor;
    InitInv(m, r, data, s);
    RunInv(m, r, data, s.mem, s, steps, s');
    AckedAll(s'.stages);
    if s'.a.released {
      RangeComplete(m, r, data, s'.stages, s.mem, s'.mem);
    }
  }

  lemma RangeComplete(m: Machine, r: Request, data: seq<int>, stages: seq<Stage>, mem0: Memory, mem: Memory)
    requires Wf(m) && |data| == Acquire.TotalBytes(r) && |stages| == |Acquire.PiecesFor(r)|
    requires MemoryOk(m, r.addr, data, Acquire.PiecesFor(r), stages, mem0, mem)
    requires forall i :: 0 <= i < |stages| ==> stages[i].Acked?
    ensures GlobalBytes(m, mem, r.addr, |data|) == data
  {
    hide GlobalByte, Acquire.PiecesFor;
    var pieces := Acquire.PiecesFor(r);
    Acquire.RequestChained(r);
    forall k: nat | k < |data| ensures GlobalByte(m, mem, r.addr + k) == data[k] {
      var i := PieceOf(pieces, r.addr, 0, |data|, k);
      PieceWithin(pieces, r.addr, 0, |data|, i);
      assert InPiece(pieces, i, r.addr + k) && IsStored(stages, i);
    }
  }

  /** A step of the release that only goes on with it. */
  predicate GoesOn(step: Step) {
    !step.Suspend?
  }

  /** Until it is complete, a release can always go on: start, or a piece to send, to store, or an acknowledgement to take in. */
  lemma ReleaseNotStuck(m: Machine, r: Request, data: seq<int>, s: Sys, steps: seq<Step>, s': Sys)
    requires Wf(m) && r.size >= 1 && Init(r, data, s) && Run(m, r, data, s, steps, s') && !s'.a.released
    ensures exists step :: GoesOn(step) && Enabled(s', step)
  {
    InitInv(m, r, data, s);
    RunInv(m, r, data, s.mem, s, steps, s');
    var step := NextStep(m, r, data, s.mem, s');
  }

  lemma NextStep(m: Machine, r: Request, data: seq<int>, mem0: Memory, s: Sys) returns (step: Step)
    requires Wf(m) && Inv(m, r, data, mem0, s) && !s.a.released
    ensures GoesOn(step) && Enabled(s, step)
  {
    AckedAll(s.stages);
    hide MemoryOk, Acquire.PiecesFor;
    var i: nat :| i < |s.stages| && !s.stages[i].Acked?;
    match s.stages[i]
    case Unsent => step := Start;
    case Issued => step := FirstIssued(s, i);
    case Sent => step := Serve(i);
    case Stored => step := Arrive(i);
  }

  lemma {:induction false} FirstIssued(s: Sys, i: nat) returns (step: Step)
    requires i < |s.stages| && s.stages[i] == Issued
    ensures GoesOn(step) && Enabled(s, step)
    decreases i
  {
    if j: nat :| j < i && s.stages[j] == Issued {
      step := FirstIssued(s, j);
    } else {
      step := Send(i);
    }
  }

  function Distance(st: Stage): nat {
    match st
    case Unsent => 4
    case Issued => 3
    case Sent => 2
    case Stored => 1
    case Acked => 0
  }

  /** How many steps are left, if all go well. */
  function Distances(stages: seq<Stage>): nat {
    if stages == [] then 0 else Distance(stages[0]) + Distances(stages[1..])
  }

  lemma {:induction false} DistancesUpdate(stages: seq<Stage>, i: nat, st: Stage)
    requires i < |stages|
    ensures Distances(stages[i := st]) + Distance(stages[i]) == Distances(stages) + Distance(st)
    decreases |stages|
  {
    if i > 0 {
      DistancesUpdate(stages[1..], i - 1, st);
      assert stages[i := st][1..] == stages[1..][i - 1 := st];
    } else {
      assert stages[i := st][1..] == stages[1..];
    }
  }

  lemma {:induction false} StartDistance(stages: seq<Stage>)
    requires StartOk(false, stages)
    ensures Distances(seq(|stages|, _ => Issued)) + |stages| == Distances(stages)
    decreases |stages|
  {
    if stages != [] {
      StartDistance(stages[1..]);
      assert seq(|stages|, _ => Issued)[1..] == seq(|stages[1..]|, _ => Issued);
    }
  }

  lemma StepDistance(m: Machine, r: Request, data: seq<int>, mem0: Memory, s: Sys, step: Step)
    requires Wf(m) && Inv(m, r, data, mem0, s) && Enabled(s, step) && GoesOn(step) && !s.a.released
    ensures Distances(Apply(m, r, data, s, step).stages) < Distances(s.stages)
  {
    AckedAll(s.stages);
    hide MemoryOk, Acquire.PiecesFor, Written, Payload;
    match step
    case Start => StartDistance(s.stages);
    case Send(i) => DistancesUpdate(s.stages, i, Sent);
    case Serve(i) => DistancesUpdate(s.stages, i, Stored);
    case Arrive(i) => DistancesUpdate(s.stages, i, Acked);
  }

  lemma {:induction false} Finish(m: Machine, r: Request, data: seq<int>, mem0: Memory, s: Sys) returns (more: seq<Step>, s': Sys)
    requires Wf(m) && Inv(m, r, data, mem0, s) && Shape(r, data, s)
    ensures Run(m, r, data, s, more, s') && s'.a.released && forall i :: 0 <= i < |more| ==> GoesOn(more[i])
    decreases Distances(s.stages)
  {
    if s.a.released {
      more, s' := [], s;
    } else {
      var step := NextStep(m, r, data, mem0, s);
      StepDistance(m, r, data, mem0, s, step);
      StepInv(m, r, data, mem0, s, step);
      hide Inv, Enabled, Apply;
      var rest: seq<Step>;
      rest, s' := Finish(m, r, data, mem0, Apply(m, r, data, s, step));
      more := [step] + rest;
      assert more[1..] == rest;
    }
  }

  /**
   From every state of every interleaving the release can be brought to its end; then the
   global range holds the buffer and the worker runs.
   */
  lemma ReleaseFinishes(m: Machine, r: Request, data: seq<int>, s: Sys, steps: seq<Step>, s1: Sys)
      returns (more: seq<Step>, s2: Sys)
    requires Wf(m) && r.size >= 1 && Init(r, data, s) && Run(m, r, data, s, steps, s1)
    ensures Shape(r, data, s1) && Run(m, r, data, s1, more, s2) && s2.a.released && !s2.suspended
    ensures GlobalBytes(m, s2.mem, r.addr, |data|) == data
  {
    InitInv(m, r, data, s);
    RunInv(m, r, data, s.mem, s, steps, s1);
    more, s2 := Finish(m, r, data, s.mem, s1);
    RunInv(m, r, data, s.mem, s1, more, s2);
    AckedAll(s2.stages);
    RangeComplete(m, r, data, s2.stages, s.mem, s2.mem);
  }

  /** A suspended worker is woken by the last acknowledgement, and by nothing else. */
  lemma WokenByTheLastReply(m: Machine, r: Request, data: seq<int>, s: Sys, steps: seq<Step>, s': Sys, step: Step)
    requires Wf(m) && r.size >= 1 && Init(r, data, s) && Run(m, r, data, s, steps, s') && Enabled(s', step) && s'.suspended
    ensures Shape(r, data, s') && var s'' := Apply(m, r, data, s', step);
      s''.suspended <==> exists i :: 0 <= i < |s''.stages| && !s''.stages[i].Acked?
  {
    InitInv(m, r, data, s);
    RunInv(m, r, data, s.mem, s, steps, s');
    StepInv(m, r, data, s.mem, s', step);
    var s'' := Apply(m, r, data, s', step);
    AckedAll(s''.stages);
    hide MemoryOk, Acquire.PiecesFor, Written, Payload, Run, Init;
  }

  /** Released and then acquired again, the bytes are the same. */
  lemma RoundTrip(m: Machine, r: Request, data: seq<int>, s: Sys, steps: seq<Step>, s': Sys,
                  t: Acquire.Sys, steps': seq<Acquire.Step>, t': Acquire.Sys)
    requires Wf(m) && r.size >= 1
    requires Init(r, data, s) && Run(m, r, data, s, steps, s') && s'.a.released
    requires Acquire.Init(r, t) && Acquire.Run(m, s'.mem, r, t, steps', t') && t'.a.acquired
    ensures t'.buffer == data
  {
    ReleaseCorrect(m, r, data, s, steps, s');
    Acquire.AcquireCorrect(m, s'.mem, r, t, steps', t');
  }
}
