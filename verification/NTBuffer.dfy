/**
 The non-temporal message buffer: messages are gathered word by word in one cache line
 and written out a line at a time, the last line padded with zeros.  Parsing what was
 written gives back exactly the messages: the padding is invisible, although messages
 may contain zeros.
 */
module NTBuffer {
  const LOCAL_BUFFER_SIZE: nat := 8

  /** Words that fit in the output buffer. */
  const CAPACITY: nat := 65536

  /** The words written out so far, and those of the line being filled. */
  datatype Lines = Lines(written: seq<int>, local: seq<int>)

  predicate LinesOk(b: Lines) {
    |b.local| < LOCAL_BUFFER_SIZE && |b.written| % LOCAL_BUFFER_SIZE == 0
  }

  function Zeros(n: nat): seq<int> {
    if n == 0 then [] else [0] + Zeros(n - 1)
  }

  lemma {:induction false} ZerosAre(n: nat)
    ensures |Zeros(n)| == n && forall i :: 0 <= i < n ==> Zeros(n)[i] == 0
  {
    if n > 0 { ZerosAre(n - 1); }
  }

  // ---------- The operations ----------

  /** `flush` */
  function Flushed(b: Lines): Lines {
    if b.local == [] then b
    else if |b.local| <= LOCAL_BUFFER_SIZE then Lines(b.written + b.local + Zeros(LOCAL_BUFFER_SIZE - |b.local|), [])
    else b
  }

  function Pushed(b: Lines, w: int): Lines {
    var b1 := b.(local := b.local + [w]);
    if |b1.local| == LOCAL_BUFFER_SIZE then Flushed(b1) else b1
  }

  /** `actual_enqueue` */
  function PushedAll(b: Lines, ws: seq<int>): Lines
    decreases |ws|
  {
    if ws == [] then b else PushedAll(Pushed(b, ws[0]), ws[1..])
  }

  /** `enqueue`; the space for a header holds whatever words happen to be there. */
  function Enqueued(b: Lines, header: seq<int>, ws: seq<int>): Lines {
    PushedAll(if b.written == [] && b.local == [] then PushedAll(b, header) else b, ws)
  }

  class Buffer {
    const localbuf: array<int>
    var written: seq<int>
    var hasBuffer: bool
    var position: int
    var localPosition: int

    ghost predicate Valid()
      reads this, localbuf
    {
      && localbuf.Length == LOCAL_BUFFER_SIZE && 0 <= localPosition < LOCAL_BUFFER_SIZE
      && position == |written| && position % LOCAL_BUFFER_SIZE == 0 && (position > 0 ==> hasBuffer)
    }

    ghost function View(): Lines
      requires Valid()
      reads this, localbuf
    {
      Lines(written, localbuf[..localPosition])
    }

    constructor ()
      ensures Valid() && fresh(localbuf) && View() == Lines([], [])
    {
      localbuf := new int[LOCAL_BUFFER_SIZE];
      written, hasBuffer, position, localPosition := [], false, 0, 0;
    }

    method IsEmpty() returns (empty: bool)
      requires Valid()
      ensures empty <==> View() == Lines([], [])
    {
      empty := position == 0 && localPosition == 0;
    }

    /** Pad the line with zeros and write it out; a full line comes here before it is counted as empty. */
    method FlushLine()
      requires localbuf.Length == LOCAL_BUFFER_SIZE && 0 <= localPosition <= LOCAL_BUFFER_SIZE
      requires position == |written| && position % LOCAL_BUFFER_SIZE == 0 && position + LOCAL_BUFFER_SIZE <= CAPACITY
      requires position > 0 ==> hasBuffer
      modifies this, localbuf
      ensures Valid()
      ensures View() == Flushed(Lines(old(written), old(localbuf[..localPosition])))
      ensures position == old(position) + if old(localPosition) > 0 then LOCAL_BUFFER_SIZE else 0
      ensures localPosition == 0
    {
      if localPosition > 0 {
        ghost var filled := localbuf[..localPosition];
        var i := localPosition;
        while i < LOCAL_BUFFER_SIZE
          invariant localPosition <= i <= LOCAL_BUFFER_SIZE && localbuf[..localPosition] == filled
          invariant forall j :: localPosition <= j < i ==> localbuf[j] == 0
          modifies localbuf
        {
          localbuf[i] := 0;
          i := i + 1;
        }
        ZerosAre(LOCAL_BUFFER_SIZE - localPosition);
        assert localbuf[..] == filled + Zeros(LOCAL_BUFFER_SIZE - localPosition);
        if !hasBuffer { hasBuffer := true; position := 0; }
        written := written + localbuf[..];
        position := position + LOCAL_BUFFER_SIZE;
        localPosition := 0;
      }
    }

    method Flush()
      requires Valid() && position + LOCAL_BUFFER_SIZE <= CAPACITY
      modifies this, localbuf
      ensures Valid() && View() == Flushed(old(View())) && localPosition == 0
      ensures position == old(position) + if old(localPosition) > 0 then LOCAL_BUFFER_SIZE else 0
    {
      FlushLine();
    }

    method ActualEnqueue(words: seq<int>)
      requires Valid() && position + localPosition + |words| + LOCAL_BUFFER_SIZE <= CAPACITY
      modifies this, localbuf
      ensures Valid() && View() == PushedAll(old(View()), words)
      ensures position + localPosition == old(position + localPosition) + |words|
    {
      var left := words;
      while left != []
        invariant Valid() && |left| <= |words| && PushedAll(View(), left) == PushedAll(old(View()), words)
        invariant position + localPosition == old(position + localPosition) + |words| - |left|
        decreases |left|
      {
        ghost var b := View();
        localbuf[localPosition] := left[0];
        assert localbuf[..localPosition + 1] == b.local + [left[0]];
        localPosition := localPosition + 1;
        if localPosition == LOCAL_BUFFER_SIZE {
          FlushLine();
        }
        assert View() == Pushed(b, left[0]);
        left := left[1..];
      }
    }

    /** The header is uninitialised space of the configured number of words. */
    method Enqueue(header: seq<int>, words: seq<int>)
      requires Valid() && position + localPosition + |header| + |words| + LOCAL_BUFFER_SIZE <= CAPACITY
      modifies this, localbuf
      ensures Valid() && View() == Enqueued(old(View()), header, words)
    {
      if position == 0 && localPosition == 0 {
        ActualEnqueue(header);
      }
      ActualEnqueue(words);
    }

    /** Flush, hand out what was written, and start over. */
    method TakeBuffer() returns (words: seq<int>)
      requires Valid() && position + LOCAL_BUFFER_SIZE <= CAPACITY
      modifies this, localbuf
      ensures Valid() && View() == Lines([], []) && words == Flushed(old(View())).written
    {
      Flush();
      words := written;
      written, hasBuffer, position := [], false, 0;
    }
  }

  // ---------- Parsing ----------

  /** A message starts with a nonzero word, the header, which determines its length. */
  predicate Message(len: int -> nat, msg: seq<int>) {
    msg != [] && msg[0] != 0 && |msg| == len(msg[0])
  }

  /** The messages that the receiver runs: a zero word is skipped, any other one starts a message. */
  function Parse(len: int -> nat, words: seq<int>): seq<seq<int>>
    decreases |words|
  {
    if words == [] then []
    else if words[0] == 0 then Parse(len, words[1..])
    else
      var n := len(words[0]);
      if 1 <= n <= |words| then [words[..n]] + Parse(len, words[n..]) else [words]
  }

  /** `deaggregate_nt_buffer` */
  method Deaggregate(len: int -> nat, words: seq<int>) returns (handled: seq<seq<int>>)
    requires forall h :: len(h) >= 1
    ensures handled == Parse(len, words)
  {
    handled := [];
    var buf := 0;
    while buf < |words|
      invariant 0 <= buf && (buf <= |words| ==> handled + Parse(len, words[buf..]) == Parse(len, words))
      invariant buf > |words| ==> handled == Parse(len, words)
      decreases |words| - buf
    {
      var next := buf + 1;
      if words[buf] != 0 {
        var n := len(words[buf]);
        next := buf + n;
        assert words[buf..][0] == words[buf];
        if next <= |words| {
          assert words[buf..][..n] == words[buf..next] && words[buf..][n..] == words[next..];
          handled := handled + [words[buf..next]];
        } else {
          handled := handled + [words[buf..]];
        }
      } else {
        assert words[buf..][1..] == words[next..];
      }
      buf := next;
    }
  }

  // ---------- The stream between header and end ----------

  /** words is the messages in order, with zero words between them. */
  predicate Stream(len: int -> nat, words: seq<int>, msgs: seq<seq<int>>)
    decreases |words|
  {
    if words == [] then msgs == []
    else if words[0] == 0 then Stream(len, words[1..], msgs)
    else
      var n := len(words[0]);
      && 1 <= n <= |words| && msgs != [] && msgs[0] == words[..n] && Stream(len, words[n..], msgs[1..])
  }

  lemma {:induction false} StreamParses(len: int -> nat, words: seq<int>, msgs: seq<seq<int>>)
    requires Stream(len, words, msgs)
    ensures Parse(len, words) == msgs
    decreases |words|
  {
    if words != [] {
      if words[0] == 0 {
        StreamParses(len, words[1..], msgs);
      } else {
        StreamParses(len, words[len(words[0])..], msgs[1..]);
      }
    }
  }

  lemma {:induction false} StreamConcat(len: int -> nat, w1: seq<int>, m1: seq<seq<int>>, w2: seq<int>, m2: seq<seq<int>>)
    requires Stream(len, w1, m1) && Stream(len, w2, m2)
    ensures Stream(len, w1 + w2, m1 + m2)
    decreases |w1|
  {
    if w1 == [] {
      assert w1 + w2 == w2 && m1 + m2 == m2;
    } else if w1[0] == 0 {
      StreamConcat(len, w1[1..], m1, w2, m2);
      assert (w1 + w2)[1..] == w1[1..] + w2;
    } else {
      var n := len(w1[0]);
      StreamConcat(len, w1[n..], m1[1..], w2, m2);
      assert (w1 + w2)[n..] == w1[n..] + w2 && (w1 + w2)[..n] == w1[..n] && (m1 + m2)[1..] == m1[1..] + m2;
    }
  }

  lemma {:induction false} StreamZeros(len: int -> nat, n: nat)
    ensures Stream(len, Zeros(n), [])
  {
    if n > 0 {
      StreamZeros(len, n - 1);
      assert Zeros(n)[1..] == Zeros(n - 1);
    }
  }

  lemma StreamOne(len: int -> nat, msg: seq<int>)
    requires Message(len, msg)
    ensures Stream(len, msg, [msg])
  {
    assert msg[..|msg|] == msg && msg[|msg|..] == [] && [msg][1..] == [];
  }

  // ---------- Round trip ----------

  function Contents(b: Lines): seq<int> {
    b.written + b.local
  }

  /** Pushing a word appends it; writing out a full line pads nothing. */
  lemma PushedContents(b: Lines, w: int)
    requires LinesOk(b)
    ensures LinesOk(Pushed(b, w)) && Contents(Pushed(b, w)) == Contents(b) + [w]
  {
    assert Zeros(0) == [];
  }

  lemma {:induction false} PushedAllContents(b: Lines, ws: seq<int>)
    requires LinesOk(b)
    ensures LinesOk(PushedAll(b, ws)) && Contents(PushedAll(b, ws)) == Contents(b) + ws
    decreases |ws|
  {
    if ws != [] {
      PushedContents(b, ws[0]);
      PushedAllContents(Pushed(b, ws[0]), ws[1..]);
    }
  }

  datatype Op = Enqueue(msg: seq<int>) | Flush

  predicate Allowed(len: int -> nat, ops: seq<Op>) {
    forall i :: 0 <= i < |ops| && ops[i].Enqueue? ==> Message(len, ops[i].msg)
  }

  function Do(b: Lines, header: seq<int>, op: Op): Lines {
    match op
    case Enqueue(msg) => Enqueued(b, header, msg)
    case Flush => Flushed(b)
  }

  function DoAll(b: Lines, header: seq<int>, ops: seq<Op>): Lines
    decreases |ops|
  {
    if ops == [] then b else DoAll(Do(b, header, ops[0]), header, ops[1..])
  }

  function Sent(ops: seq<Op>): seq<seq<int>> {
    if ops == [] then [] else (if ops[0].Enqueue? then [ops[0].msg] else []) + Sent(ops[1..])
  }

  /** Nothing yet, or the header and then the messages. */
  ghost predicate Carries(len: int -> nat, header: seq<int>, b: Lines, msgs: seq<seq<int>>) {
    && LinesOk(b)
    && (Contents(b) == [] ==> msgs == [])
    && (Contents(b) != [] ==>
          |header| <= |Contents(b)| && Contents(b)[..|header|] == header && Stream(len, Contents(b)[|header|..], msgs))
  }

  lemma FlushedContents(b: Lines)
    requires LinesOk(b) && b.local != []
    ensures LinesOk(Flushed(b)) && Contents(Flushed(b)) == Contents(b) + Zeros(LOCAL_BUFFER_SIZE - |b.local|)
  {
    ZerosAre(LOCAL_BUFFER_SIZE - |b.local|);
    hide Zeros;
  }

  lemma PaddedStream(len: int -> nat, contents: seq<int>, k: nat, msgs: seq<seq<int>>, n: nat)
    requires k <= |contents| && Stream(len, contents[k..], msgs)
    ensures Stream(len, (contents + Zeros(n))[k..], msgs) && (contents + Zeros(n))[..k] == contents[..k]
  {
    hide Stream, Zeros;
    StreamZeros(len, n);
    StreamConcat(len, contents[k..], msgs, Zeros(n), []);
    assert (contents + Zeros(n))[k..] == contents[k..] + Zeros(n);
    assert msgs + [] == msgs;
  }

  lemma FlushedCarries(len: int -> nat, header: seq<int>, b: Lines, msgs: seq<seq<int>>)
    requires Carries(len, header, b, msgs)
    ensures Carries(len, header, Flushed(b), msgs)
  {
    if b.local != [] {
      FlushedContents(b);
      hide Flushed, LinesOk;
      PaddedStream(len, Contents(b), |header|, msgs, LOCAL_BUFFER_SIZE - |b.local|);
      hide Stream, Zeros, Contents;
    }
  }

  /** A message appended to a header and a stream. */
  lemma AppendMessage(len: int -> nat, header: seq<int>, c: seq<int>, msgs: seq<seq<int>>, msg: seq<int>)
    requires |header| <= |c| && c[..|header|] == header && Stream(len, c[|header|..], msgs) && Message(len, msg)
    ensures (c + msg)[..|header|] == header && Stream(len, (c + msg)[|header|..], msgs + [msg])
  {
    StreamOne(len, msg);
    StreamConcat(len, c[|header|..], msgs, msg, [msg]);
    assert (c + msg)[|header|..] == c[|header|..] + msg;
  }

  lemma EnqueuedCarries(len: int -> nat, header: seq<int>, b: Lines, msgs: seq<seq<int>>, msg: seq<int>)
    requires Carries(len, header, b, msgs) && Message(len, msg)
    ensures Carries(len, header, Enqueued(b, header, msg), msgs + [msg])
  {
    var start := if b.written == [] && b.local == [] then PushedAll(b, header) else b;
    PushedAllContents(b, header);
    PushedAllContents(start, msg);
    hide PushedAll;
    var c := Contents(start);
    assert |header| <= |c| && c[..|header|] == header && Stream(len, c[|header|..], msgs);
    hide Stream;
    AppendMessage(len, header, c, msgs, msg);
  }

  lemma {:induction false} DoAllCarries(len: int -> nat, header: seq<int>, b: Lines, msgs: seq<seq<int>>, ops: seq<Op>)
    requires Carries(len, header, b, msgs) && Allowed(len, ops)
    ensures Carries(len, header, DoAll(b, header, ops), msgs + Sent(ops))
    decreases |ops|
  {
    hide Carries, Enqueued, Flushed;
    if ops == [] {
      assert msgs + Sent(ops) == msgs;
    } else {
      var b1, m1 := Do(b, header, ops[0]), if ops[0].Enqueue? then msgs + [ops[0].msg] else msgs;
      match ops[0] {
        case Enqueue(msg) => EnqueuedCarries(len, header, b, msgs, msg);
        case Flush => FlushedCarries(len, header, b, msgs);
      }
      DoAllCarries(len, header, b1, m1, ops[1..]);
      assert m1 + Sent(ops[1..]) == msgs + Sent(ops);
    }
  }

  /** A flush writes out everything, padded to the end of the line that it is in and no further. */
  lemma FlushFillsTheLine(b: Lines)
    requires LinesOk(b)
    ensures Flushed(b).local == [] && |Flushed(b).written| % LOCAL_BUFFER_SIZE == 0
    ensures |Contents(b)| <= |Flushed(b).written| < |Contents(b)| + LOCAL_BUFFER_SIZE
    ensures Flushed(b).written[..|Contents(b)|] == Contents(b)
  {
    ZerosAre(LOCAL_BUFFER_SIZE - |b.local|);
    hide Zeros;
  }

  /**
   Whatever whole messages are enqueued and whenever the buffer is flushed, parsing what
   is taken out, after the header's words, yields exactly the messages in order.
   */
  lemma RoundTrip(len: int -> nat, header: seq<int>, ops: seq<Op>)
    requires Allowed(len, ops)
    ensures var taken := Flushed(DoAll(Lines([], []), header, ops)).written;
      if Sent(ops) == [] then taken == []
      else |header| <= |taken| && taken[..|header|] == header && Parse(len, taken[|header|..]) == Sent(ops)
  {
    var b := DoAll(Lines([], []), header, ops);
    DoAllCarries(len, header, Lines([], []), [], ops);
    assert [] + Sent(ops) == Sent(ops);
    FlushedCarries(len, header, b, Sent(ops));
    var taken := Flushed(b).written;
    assert Contents(Flushed(b)) == taken;
    if Sent(ops) == [] {
      NothingSent(header, ops);
    } else {
      StreamParses(len, taken[|header|..], Sent(ops));
    }
  }

  lemma {:induction false} NothingSent(header: seq<int>, ops: seq<Op>)
    requires Sent(ops) == []
    ensures DoAll(Lines([], []), header, ops) == Lines([], [])
    decreases |ops|
  {
    if ops != [] { NothingSent(header, ops[1..]); }
  }
}
