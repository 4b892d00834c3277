/**
 Acquiring a cache: the requests go out block by block, the owners reply with their
 bytes, and the replies arrive in any order.  The acquire completes exactly when all
 replies have arrived, and then the buffer holds the global bytes.
 */
module IncoherentAcquire {
  import opened Bits
  import opened Addressing
  import opened CachePieces

  /** count elements of size bytes at a linear address. */
  datatype Request = Request(addr: nat, size: nat, count: nat)

  function TotalBytes(r: Request): nat {
    r.count * r.size
  }

  function PiecesFor(r: Request): seq<Piece> {
    Pieces(r.addr, 0, TotalBytes(r))
  }

  /** The acquirer's own fields; thread tells whether a worker is registered to be woken. */
  datatype Acquirer = Acquirer(started: bool, acquired: bool, thread: bool,
                               numMessages: int, responses: int, expected: int, payload: int)

  function AcquirerReset(r: Request): Acquirer
    requires r.size >= 1
  {
    if r.count == 0 then Acquirer(true, true, false, 0, 0, 0, 0)
    else Acquirer(false, false, false, NumMessages(r.addr, r.size, r.count), 0, TotalBytes(r), 0)
  }

  function Replied(a: Acquirer, bytes: nat): Acquirer {
    a.(responses := a.responses + 1, payload := a.payload + bytes,
       acquired := a.acquired || a.responses + 1 == a.numMessages)
  }

  /** memcpy into the buffer. */
  function Splice(buffer: seq<int>, offset: nat, payload: seq<int>): seq<int>
    requires offset + |payload| <= |buffer|
  {
    buffer[..offset] + payload + buffer[offset + |payload|..]
  }

  // ---------- The object ----------

  class IncoherentAcquirer {
    const request: Request
    var started: bool
    var acquired: bool
    var thread: bool
    var numMessages: int
    var responses: int
    var expected: int
    var payload: int
    const buffer: array<int>

    ghost function View(): Acquirer
      reads this
    {
      Acquirer(started, acquired, thread, numMessages, responses, expected, payload)
    }

    /** Ready for its request: it will expect as many replies as it has pieces to ask for, unless there are none. */
    ghost predicate Ready()
      reads this
    {
      && (started <==> PiecesFor(request) == []) && (acquired <==> PiecesFor(request) == []) && !thread
      && numMessages == |PiecesFor(request)| && responses == 0 && expected == TotalBytes(request) && payload == 0
    }

    constructor (request: Request, buffer: array<int>)
      requires request.size >= 1
      ensures this.request == request && this.buffer == buffer && View() == AcquirerReset(request) && Ready()
    {
      this.request := request;
      this.buffer := buffer;
      started, acquired := false, false;
      new;
      Reset();
    }

    method Reset()
      requires request.size >= 1 && (!started || acquired)
      modifies this
      ensures View() == AcquirerReset(request) && Ready()
    {
      ResetIsReady(request);
      started, acquired, thread := false, false, false;
      numMessages, responses := 0, 0;
      expected, payload := request.size * request.count, 0;
      if request.count == 0 {
        started, acquired := true, true;
      } else {
        var last := request.addr + (request.count - 1) * request.size + request.size - 1;
        var byteDiff := BlockMax(last, 1) - BlockMin(request.addr);
        numMessages := byteDiff / BLOCK_SIZE;
      }
    }

    /** Send the requests, unless they are on their way. */
    method StartAcquire() returns (sent: seq<Piece>)
      modifies this`started
      ensures started && sent == if old(started) then [] else PiecesFor(request)
    {
      sent := [];
      if !started {
        started := true;
        sent := DoAcquire();
      }
    }

    /** Up to the suspension: the requests are sent if they were not, and the worker suspends if replies are missing. */
    method BlockUntilAcquired() returns (sent: seq<Piece>, suspends: bool)
      modifies this`started, this`thread
      ensures sent == if old(started) || acquired then [] else PiecesFor(request)
      ensures suspends == !acquired && started == (old(started) || !acquired) && thread == (old(thread) || suspends)
    {
      sent, suspends := [], false;
      if !acquired {
        sent := StartAcquire();
        thread, suspends := true, true;
      }
    }

    method DoAcquire() returns (sent: seq<Piece>)
      ensures sent == PiecesFor(request)
    {
      var totalBytes := request.count * request.size;
      var addr: nat, offset: nat := request.addr, 0;
      sent := [];
      while offset < totalBytes
        invariant 0 <= offset <= totalBytes && sent + Pieces(addr, offset, totalBytes) == PiecesFor(request)
        decreases totalBytes - offset
      {
        var bytes := BlockMax(addr, 1) - addr;
        if bytes > totalBytes - offset { bytes := totalBytes - offset; }
        sent := sent + [Piece(addr, offset, bytes)];
        addr, offset := addr + bytes, offset + bytes;
      }
    }

    /** A reply: copy it, count it, and on the last one finish and wake the registered worker. */
    method AcquireReply(offset: nat, bytes: seq<int>) returns (wake: bool)
      requires offset + |bytes| <= buffer.Length
      modifies this, buffer
      ensures View() == Replied(old(View()), |bytes|)
      ensures buffer[..] == Splice(old(buffer[..]), offset, bytes)
      ensures wake <==> old(responses) + 1 == numMessages && thread
    {
      forall k | 0 <= k < |bytes| {
        buffer[offset + k] := bytes[k];
      }
      assert buffer[..] == Splice(old(buffer[..]), offset, bytes);
      responses := responses + 1;
      payload := payload + |bytes|;
      wake := false;
      if responses == numMessages {
        acquired := true;
        wake := thread;
      }
    }
  }

  lemma ResetIsReady(r: Request)
    requires r.size >= 1
    ensures r.count == 0 <==> PiecesFor(r) == []
    ensures AcquirerReset(r).numMessages == |PiecesFor(r)|
  {
    if r.count > 0 {
      SendsWhatItExpects(r.addr, r.size, r.count);
      BytesMul(r.size, r.count);
    }
  }

  /** A cache that is used again: reset, then block.  Whatever happened before, every piece is asked for. */
  method AcquireAnew(o: IncoherentAcquirer) returns (sent: seq<Piece>)
    requires o.request.size >= 1 && (!o.started || o.acquired)
    modifies o
    ensures sent == PiecesFor(o.request) && o.numMessages == |sent| && o.responses == 0
    ensures (o.acquired <==> sent == []) && (o.thread <==> sent != [])
  {
    o.Reset();
    var suspends: bool;
    sent, suspends := o.BlockUntilAcquired();
  }

  // ---------- All interleavings ----------

  /**
   Where a piece is: not asked for, in the send loop, on its way to the owner, on its way
   back with the bytes, or arrived.
   */
  datatype Stage = Unsent | Issued | Requested | Answered(payload: seq<int>) | Arrived

  datatype Sys = Sys(a: Acquirer, stages: seq<Stage>, buffer: seq<int>, suspended: bool)

  datatype Step = Start | Send(i: nat) | Serve(i: nat) | Arrive(i: nat) | Suspend

  predicate Shape(r: Request, s: Sys) {
    |s.stages| == |PiecesFor(r)| && |s.buffer| == TotalBytes(r)
  }

  predicate Init(r: Request, s: Sys)
    requires r.size >= 1
  {
    && Shape(r, s) && s.a == AcquirerReset(r) && !s.suspended
    && forall i :: 0 <= i < |s.stages| ==> s.stages[i] == Unsent
  }

  /**
   Only an acquire that has not been started starts.  Requests are sent in order; the
   worker suspends once they are all sent, if the acquire is not complete.
   */
  predicate Enabled(s: Sys, step: Step) {
    match step
    case Start => !s.a.started
    case Send(i) => i < |s.stages| && s.stages[i] == Issued && forall j :: 0 <= j < i ==> s.stages[j] != Issued
    case Serve(i) => i < |s.stages| && s.stages[i] == Requested
    case Arrive(i) => i < |s.stages| && s.stages[i].Answered?
    case Suspend =>
      s.a.started && !s.a.acquired && !s.suspended && forall j :: 0 <= j < |s.stages| ==> s.stages[j] != Issued
  }

  function Apply(m: Machine, mem: Memory, r: Request, s: Sys, step: Step): (s': Sys)
    requires Wf(m) && Shape(r, s) && Enabled(s, step)
    ensures Shape(r, s')
  {
    match step
    case Start => s.(a := s.a.(started := true), stages := seq(|s.stages|, _ => Issued))
    case Send(i) => s.(stages := s.stages[i := Requested])
    case Serve(i) =>
      var p := PiecesFor(r)[i];
      s.(stages := s.stages[i := Answered(LocalBytes(mem, CoreOf(m, p.addr), Pointer(m, p.addr), p.bytes))])
    case Arrive(i) =>
      var p, payload := PiecesFor(r)[i], s.stages[i].payload;
      var a := Replied(s.a, |payload|);
      var wake := s.a.responses + 1 == a.numMessages && a.thread;
      s.(a := a, stages := s.stages[i := Arrived], suspended := s.suspended && !wake,
         buffer := if p.offset + |payload| <= |s.buffer| then Splice(s.buffer, p.offset, payload) else s.buffer)
    case Suspend => s.(a := s.a.(thread := true), suspended := true)
  }

  ghost predicate Run(m: Machine, mem: Memory, r: Request, s: Sys, steps: seq<Step>, s': Sys)
    requires Wf(m) && Shape(r, s)
    decreases |steps|
  {
    if steps == [] then s' == s
    else Enabled(s, steps[0]) && Run(m, mem, r, Apply(m, mem, r, s, steps[0]), steps[1..], s')
  }

  // ---------- The invariant ----------

  function CountArrived(stages: seq<Stage>): nat {
    if stages == [] then 0 else CountArrived(stages[1..]) + if stages[0].Arrived? then 1 else 0
  }

  function BytesArrived(stages: seq<Stage>, pieces: seq<Piece>): nat
    requires |stages| == |pieces|
  {
    if stages == [] then 0
    else BytesArrived(stages[1..], pieces[1..]) + if stages[0].Arrived? then pieces[0].bytes else 0
  }

  lemma {:induction false} ArrivedUpdate(stages: seq<Stage>, pieces: seq<Piece>, i: nat, st: Stage)
    requires |stages| == |pieces| && i < |stages| && !stages[i].Arrived?
    ensures CountArrived(stages[i := st]) == CountArrived(stages) + if st.Arrived? then 1 else 0
    ensures BytesArrived(stages[i := st], pieces) ==
      BytesArrived(stages, pieces) + if st.Arrived? then pieces[i].bytes else 0
    decreases |stages|
  {
    if i > 0 {
      ArrivedUpdate(stages[1..], pieces[1..], i - 1, st);
      assert stages[i := st][1..] == stages[1..][i - 1 := st];
    } else {
      assert stages[i := st][1..] == stages[1..];
    }
  }

  lemma {:induction false} ArrivedAll(stages: seq<Stage>)
    ensures CountArrived(stages) <= |stages|
    ensures CountArrived(stages) == |stages| <==> forall i :: 0 <= i < |stages| ==> stages[i].Arrived?
    decreases |stages|
  {
    if stages != [] {
      ArrivedAll(stages[1..]);
      assert stages == [stages[0]] + stages[1..];
    }
  }

  lemma {:induction false} ArrivedNone(stages: seq<Stage>, pieces: seq<Piece>)
    requires |stages| == |pieces| && forall i :: 0 <= i < |stages| ==> !stages[i].Arrived?
    ensures CountArrived(stages) == 0 && BytesArrived(stages, pieces) == 0
    decreases |stages|
  {
    if stages != [] { ArrivedNone(stages[1..], pieces[1..]); }
  }

  lemma {:induction false} BytesAll(stages: seq<Stage>, pieces: seq<Piece>, addr: nat, offset: nat, total: nat)
    requires |stages| == |pieces| && Chained(pieces, addr, offset, total)
    requires forall i :: 0 <= i < |stages| ==> stages[i].Arrived?
    ensures BytesArrived(stages, pieces) == total - offset
    decreases |stages|
  {
    if stages != [] { BytesAll(stages[1..], pieces[1..], addr + pieces[0].bytes, offset + pieces[0].bytes, total); }
  }

  /** The part of a buffer, or of the data, that belongs to a piece. */
  function Part(bytes: seq<int>, p: Piece): seq<int>
    requires p.offset + p.bytes <= |bytes|
  {
    bytes[p.offset..p.offset + p.bytes]
  }

  /** Answers carry the piece's bytes, and the buffer holds those of the pieces that have arrived. */
  predicate StageOk(data: seq<int>, buffer: seq<int>, p: Piece, st: Stage) {
    && p.offset + p.bytes <= |data| && |buffer| == |data|
    && (st.Answered? ==> st.payload == Part(data, p))
    && (st.Arrived? ==> Part(buffer, p) == Part(data, p))
  }

  predicate Contents(data: seq<int>, buffer: seq<int>, pieces: seq<Piece>, stages: seq<Stage>) {
    && |stages| == |pieces| && |buffer| == |data|
    && forall i :: 0 <= i < |pieces| ==> StageOk(data, buffer, pieces[i], stages[i])
  }

  predicate Counting(a: Acquirer, stages: seq<Stage>, pieces: seq<Piece>) {
    && |stages| == |pieces| && a.numMessages == |pieces|
    && a.responses == CountArrived(stages) && a.payload == BytesArrived(stages, pieces)
    && (a.acquired <==> a.responses == a.numMessages)
  }

  ghost predicate Inv(m: Machine, mem: Memory, r: Request, s: Sys)
    requires Wf(m)
  {
    && Shape(r, s) && s.a.expected == TotalBytes(r)
    && Counting(s.a, s.stages, PiecesFor(r))
    && Contents(GlobalBytes(m, mem, r.addr, TotalBytes(r)), s.buffer, PiecesFor(r), s.stages)
    && (s.suspended ==> s.a.thread && !s.a.acquired)
    && StartOk(s.a.started, s.stages)
  }

  /** All pieces are asked for once the acquire has been started, and none before. */
  predicate StartOk(started: bool, stages: seq<Stage>) {
    forall i :: 0 <= i < |stages| ==> (stages[i] == Unsent <==> !started)
  }

  lemma InitInv(m: Machine, mem: Memory, r: Request, s: Sys)
    requires Wf(m) && r.size >= 1 && Init(r, s)
    ensures Inv(m, mem, r, s)
  {
    var pieces, total := PiecesFor(r), TotalBytes(r);
    ArrivedNone(s.stages, pieces);
    PiecesChained(r.addr, 0, total);
    forall i | 0 <= i < |pieces| ensures pieces[i].offset + pieces[i].bytes <= total {
      PieceWithin(pieces, r.addr, 0, total, i);
    }
    ResetIsReady(r);
  }

  /** An answer that is as it should be. */
  lemma ServeOk(m: Machine, mem: Memory, r: Request, i: nat)
    requires Wf(m) && i < |PiecesFor(r)|
    ensures var p := PiecesFor(r)[i];
      && p.offset + p.bytes <= TotalBytes(r)
      && LocalBytes(mem, CoreOf(m, p.addr), Pointer(m, p.addr), p.bytes) ==
           Part(GlobalBytes(m, mem, r.addr, TotalBytes(r)), p)
  {
    PiecesChained(r.addr, 0, TotalBytes(r));
    PieceWithin(PiecesFor(r), r.addr, 0, TotalBytes(r), i);
    PieceBytesRead(m, mem, r.addr, TotalBytes(r), PiecesFor(r)[i]);
  }

  lemma StageUpdate(data: seq<int>, buffer: seq<int>, pieces: seq<Piece>, stages: seq<Stage>, i: nat, st: Stage)
    requires Contents(data, buffer, pieces, stages) && i < |pieces| && StageOk(data, buffer, pieces[i], st)
    ensures Contents(data, buffer, pieces, stages[i := st])
  {
    hide StageOk;
  }

  /** Copying one piece leaves the others in place. */
  lemma SpliceParts(buffer: seq<int>, p: Piece, q: Piece, payload: seq<int>)
    requires p.offset + p.bytes <= |buffer| && q.offset + q.bytes <= |buffer| && |payload| == p.bytes
    ensures Part(Splice(buffer, p.offset, payload), p) == payload
    ensures p.offset + p.bytes <= q.offset || q.offset + q.bytes <= p.offset ==>
      Part(Splice(buffer, p.offset, payload), q) == Part(buffer, q)
  {
  }

  lemma ArriveContents(data: seq<int>, buffer: seq<int>, pieces: seq<Piece>, stages: seq<Stage>, i: nat, addr: nat, total: nat)
    requires Contents(data, buffer, pieces, stages) && i < |pieces| && stages[i].Answered?
    requires Chained(pieces, addr, 0, total)
    ensures pieces[i].offset + |stages[i].payload| <= |buffer| && |stages[i].payload| == pieces[i].bytes
    ensures Contents(data, Splice(buffer, pieces[i].offset, stages[i].payload), pieces, stages[i := Arrived])
  {
    var p, payload := pieces[i], stages[i].payload;
    assert StageOk(data, buffer, p, stages[i]);
    var buffer' := Splice(buffer, p.offset, payload);
    forall j | 0 <= j < |pieces| ensures StageOk(data, buffer', pieces[j], stages[i := Arrived][j]) {
      hide Splice, Part;
      assert StageOk(data, buffer, pieces[j], stages[j]);
      SpliceParts(buffer, p, pieces[j], payload);
      if j < i { PiecesApart(pieces, addr, 0, total, j, i); }
      if i < j { PiecesApart(pieces, addr, 0, total, i, j); }
    }
  }

  lemma StepInv(m: Machine, mem: Memory, r: Request, s: Sys, step: Step)
    requires Wf(m) && Inv(m, mem, r, s) && Enabled(s, step)
    ensures Inv(m, mem, r, Apply(m, mem, r, s, step))
  {
    hide Contents, PiecesFor, TotalBytes, GlobalBytes, LocalBytes, Splice, CountArrived, BytesArrived;
    var data := GlobalBytes(m, mem, r.addr, TotalBytes(r));
    var pieces := PiecesFor(r);
    match step
    case Start => StartStages(data, s.buffer, pieces, s.stages);
    case Send(i) =>
      ArrivedUpdate(s.stages, pieces, i, Requested);
      SimpleStageOk(data, s.buffer, pieces, s.stages, i);
      StageUpdate(data, s.buffer, pieces, s.stages, i, Requested);
    case Serve(i) =>
      var p := pieces[i];
      var payload := LocalBytes(mem, CoreOf(m, p.addr), Pointer(m, p.addr), p.bytes);
      ServeOk(m, mem, r, i);
      SimpleStageOk(data, s.buffer, pieces, s.stages, i);
      ArrivedUpdate(s.stages, pieces, i, Answered(payload));
      StageUpdate(data, s.buffer, pieces, s.stages, i, Answered(payload));
    case Arrive(i) =>
      RequestChained(r);
      ArrivedUpdate(s.stages, pieces, i, Arrived);
      ArrivedAll(s.stages[i := Arrived]);
      ArriveContents(data, s.buffer, pieces, s.stages, i, r.addr, TotalBytes(r));
    case Suspend =>
  }

  lemma StartStages(data: seq<int>, buffer: seq<int>, pieces: seq<Piece>, stages: seq<Stage>)
    requires Contents(data, buffer, pieces, stages) && StartOk(false, stages)
    ensures var issued := seq(|stages|, _ => Issued);
      && Contents(data, buffer, pieces, issued) && StartOk(true, issued)
      && CountArrived(issued) == CountArrived(stages) && BytesArrived(issued, pieces) == BytesArrived(stages, pieces)
  {
    ArrivedNone(stages, pieces);
    ArrivedNone(seq(|stages|, _ => Issued), pieces);
    forall i | 0 <= i < |pieces| ensures StageOk(data, buffer, pieces[i], Issued) {
      assert StageOk(data, buffer, pieces[i], stages[i]);
    }
    hide StageOk;
  }

  lemma RequestChained(r: Request)
    ensures Chained(PiecesFor(r), r.addr, 0, TotalBytes(r))
  {
    PiecesChained(r.addr, 0, TotalBytes(r));
  }

  lemma SimpleStageOk(data: seq<int>, buffer: seq<int>, pieces: seq<Piece>, stages: seq<Stage>, i: nat)
    requires Contents(data, buffer, pieces, stages) && i < |pieces|
    ensures pieces[i].offset + pieces[i].bytes <= |data| && StageOk(data, buffer, pieces[i], Requested)
    ensures StageOk(data, buffer, pieces[i], Answered(Part(data, pieces[i])))
  {
    assert StageOk(data, buffer, pieces[i], stages[i]);
  }

  lemma {:induction false} RunInv(m: Machine, mem: Memory, r: Request, s: Sys, steps: seq<Step>, s': Sys)
    requires Wf(m) && Inv(m, mem, r, s) && Run(m, mem, r, s, steps, s')
    ensures Inv(m, mem, r, s')
    decreases |steps|
  {
    hide Inv, Apply, Enabled;
    if steps != [] {
      InvShape(m, mem, r, s);
      StepInv(m, mem, r, s, steps[0]);
      RunInv(m, mem, r, Apply(m, mem, r, s, steps[0]), steps[1..], s');
    }
  }

  lemma InvShape(m: Machine, mem: Memory, r: Request, s: Sys)
    requires Wf(m) && Inv(m, mem, r, s)
    ensures Shape(r, s)
  {
  }

  // ---------- What an acquire promises ----------

  /**
   In every interleaving the acquire is complete exactly when every reply has arrived;
   then the buffer holds the bytes of the global range, the payloads add up to what was
   expected, and the worker is not left suspended.
   */
  lemma AcquireCorrect(m: Machine, mem: Memory, r: Request, s: Sys, steps: seq<Step>, s': Sys)
    requires Wf(m) && r.size >= 1 && Init(r, s) && Run(m, mem, r, s, steps, s')
    ensures s'.a.acquired <==> forall i :: 0 <= i < |s'.stages| ==> s'.stages[i].Arrived?
    ensures s'.a.acquired ==>
      && s'.buffer == GlobalBytes(m, mem, r.addr, TotalBytes(r))
      && s'.a.payload == s'.a.expected && !s'.suspended
  {
    InitInv(m, mem, r, s);
    RunInv(m, mem, r, s, steps, s');
    ArrivedAll(s'.stages);
    if s'.a.acquired { AllAcquired(m, mem, r, s'); }
  }

  lemma BufferComplete(data: seq<int>, buffer: seq<int>, pieces: seq<Piece>, stages: seq<Stage>, addr: nat)
    requires Contents(data, buffer, pieces, stages) && Chained(pieces, addr, 0, |data|)
    requires forall i :: 0 <= i < |stages| ==> stages[i].Arrived?
    ensures buffer == data
  {
    forall k | 0 <= k < |data| ensures buffer[k] == data[k] {
      var i := PieceOf(pieces, addr, 0, |data|, k);
      assert StageOk(data, buffer, pieces[i], stages[i]);
      assert Part(buffer, pieces[i])[k - pieces[i].offset] == Part(data, pieces[i])[k - pieces[i].offset];
    }
  }

  /** A step of the acquire that only goes on with it. */
  predicate GoesOn(step: Step) {
    !step.Suspend?
  }

  /** Until it is complete, an acquire can always go on: start, or a request to send, to serve, or a reply to take in. */
  lemma AcquireNotStuck(m: Machine, mem: Memory, r: Request, s: Sys, steps: seq<Step>, s': Sys)
    requires Wf(m) && r.size >= 1 && Init(r, s) && Run(m, mem, r, s, steps, s') && !s'.a.acquired
    ensures exists step :: GoesOn(step) && Enabled(s', step)
  {
    InitInv(m, mem, r, s);
    RunInv(m, mem, r, s, steps, s');
    var step := NextStep(m, mem, r, s');
  }

  lemma NextStep(m: Machine, mem: Memory, r: Request, s: Sys) returns (step: Step)
    requires Wf(m) && Inv(m, mem, r, s) && !s.a.acquired
    ensures GoesOn(step) && Enabled(s, step)
  {
    ArrivedAll(s.stages);
    hide Contents, PiecesFor;
    var i: nat :| i < |s.stages| && !s.stages[i].Arrived?;
    match s.stages[i]
    case Unsent => step := Start;
    case Issued => step := FirstIssued(s, i);
    case Requested => step := Serve(i);
    case Answered(_) => step := Arrive(i);
  }

  lemma {:induction false} FirstIssued(s: Sys, i: nat) returns (step: Step)
    requires i < |s.stages| && s.stages[i] == Issued
    ensures GoesOn(step) && Enabled(s, step)
    decreases i
  {
    if j: nat :| j < i && s.stages[j] == Issued {
      step := FirstIssued(s, j);
    } else {
      step := Send(i);
    }
  }

  function Distance(st: Stage): nat {
    match st
    case Unsent => 4
    case Issued => 3
    case Requested => 2
    case Answered(_) => 1
    case Arrived => 0
  }

  /** How many steps are left, if all go well. */
  function Distances(stages: seq<Stage>): nat {
    if stages == [] then 0 else Distance(stages[0]) + Distances(stages[1..])
  }

  lemma {:induction false} DistancesUpdate(stages: seq<Stage>, i: nat, st: Stage)
    requires i < |stages|
    ensures Distances(stages[i := st]) + Distance(stages[i]) == Distances(stages) + Distance(st)
    decreases |stages|
  {
    if i > 0 {
      DistancesUpdate(stages[1..], i - 1, st);
      assert stages[i := st][1..] == stages[1..][i - 1 := st];
    } else {
      assert stages[i := st][1..] == stages[1..];
    }
  }

  lemma {:induction false} StartDistance(stages: seq<Stage>)
    requires StartOk(false, stages)
    ensures Distances(seq(|stages|, _ => Issued)) + |stages| == Distances(stages)
    decreases |stages|
  {
    if stages != [] {
      StartDistance(stages[1..]);
      assert seq(|stages|, _ => Issued)[1..] == seq(|stages[1..]|, _ => Issued);
    }
  }

  lemma StepDistance(m: Machine, mem: Memory, r: Request, s: Sys, step: Step)
    requires Wf(m) && Inv(m, mem, r, s) && Enabled(s, step) && GoesOn(step) && !s.a.acquired
    ensures Distances(Apply(m, mem, r, s, step).stages) < Distances(s.stages)
  {
    ArrivedAll(s.stages);
    hide Contents, PiecesFor, LocalBytes, Splice;
    match step
    case Start => StartDistance(s.stages);
    case Send(i) => DistancesUpdate(s.stages, i, Requested);
    case Serve(i) => DistancesUpdate(s.stages, i, Apply(m, mem, r, s, step).stages[i]);
    case Arrive(i) => DistancesUpdate(s.stages, i, Arrived);
  }

  lemma {:induction false} Finish(m: Machine, mem: Memory, r: Request, s: Sys) returns (more: seq<Step>, s': Sys)
    requires Wf(m) && Inv(m, mem, r, s)
    ensures Run(m, mem, r, s, more, s') && s'.a.acquired && forall i :: 0 <= i < |more| ==> GoesOn(more[i])
    decreases Distances(s.stages)
  {
    if s.a.acquired {
      more, s' := [], s;
    } else {
      var step := NextStep(m, mem, r, s);
      StepDistance(m, mem, r, s, step);
      StepInv(m, mem, r, s, step);
      hide Inv, Enabled, Apply;
      var rest: seq<Step>;
      rest, s' := Finish(m, mem, r, Apply(m, mem, r, s, step));
      more := [step] + rest;
      assert more[1..] == rest;
    }
  }

  /**
   From every state of every interleaving the acquire can be brought to its end; then the
   buffer holds the global bytes and the worker runs.
   */
  lemma AcquireFinishes(m: Machine, mem: Memory, r: Request, s: Sys, steps: seq<Step>, s1: Sys)
      returns (more: seq<Step>, s2: Sys)
    requires Wf(m) && r.size >= 1 && Init(r, s) && Run(m, mem, r, s, steps, s1)
    ensures Shape(r, s1) && Run(m, mem, r, s1, more, s2) && s2.a.acquired && !s2.suspended
    ensures s2.buffer == GlobalBytes(m, mem, r.addr, TotalBytes(r))
  {
    InitInv(m, mem, r, s);
    RunInv(m, mem, r, s, steps, s1);
    more, s2 := Finish(m, mem, r, s1);
    RunInv(m, mem, r, s1, more, s2);
    AllAcquired(m, mem, r, s2);
  }

  lemma AllAcquired(m: Machine, mem: Memory, r: Request, s: Sys)
    requires Wf(m) && Inv(m, mem, r, s) && s.a.acquired
    ensures s.buffer == GlobalBytes(m, mem, r.addr, TotalBytes(r)) && s.a.payload == s.a.expected && !s.suspended
  {
    ArrivedAll(s.stages);
    RequestChained(r);
    BytesAll(s.stages, PiecesFor(r), r.addr, 0, TotalBytes(r));
    BufferComplete(GlobalBytes(m, mem, r.addr, TotalBytes(r)), s.buffer, PiecesFor(r), s.stages, r.addr);
  }

  /** A suspended worker is woken by the last reply, and by nothing else. */
  lemma WokenByTheLastReply(m: Machine, mem: Memory, r: Request, s: Sys, steps: seq<Step>, s': Sys, step: Step)
    requires Wf(m) && r.size >= 1 && Init(r, s) && Run(m, mem, r, s, steps, s') && Enabled(s', step) && s'.suspended
    ensures Shape(r, s') && var s'' := Apply(m, mem, r, s', step);
      s''.suspended <==> exists i :: 0 <= i < |s''.stages| && !s''.stages[i].Arrived?
  {
    InitInv(m, mem, r, s);
    RunInv(m, mem, r, s, steps, s');
    StepInv(m, mem, r, s', step);
    var s'' := Apply(m, mem, r, s', step);
    ArrivedAll(s''.stages);
    hide Contents, PiecesFor, LocalBytes, Splice, Run, Init;
  }
}
