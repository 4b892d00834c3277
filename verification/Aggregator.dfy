/**
 The message aggregator: messages for a target are gathered in its buffer and sent as
 one bundle when the buffer is full, when it is flushed, or when it has waited too long.
 Bundles carry exactly the messages, in order; the queue knows which buffers are not
 empty and since when; and a poll leaves no buffer that has waited too long.
 */
module Aggregator {
  import opened Basics
  import opened LRQueue

  // ---------- Messages as bytes ----------

  const HEADER_SIZE: nat := 16
  const BUFFER_SIZE: nat := 4024

  type Byte = x: int | 0 <= x < 256

  /** An active message: handler, destination core, argument bytes and payload bytes. */
  datatype Message = Message(fn: nat, dest: nat, args: seq<Byte>, payload: seq<Byte>)

  /** n little-endian bytes of x */
  function Bytes(x: nat, n: nat): (b: seq<Byte>)
    ensures |b| == n
  {
    if n == 0 then [] else [x % 256] + Bytes(x / 256, n - 1)
  }

  function Number(b: seq<Byte>): nat {
    if b == [] then 0 else b[0] + 256 * Number(b[1..])
  }

  function Power256(n: nat): nat {
    if n == 0 then 1 else 256 * Power256(n - 1)
  }

  lemma {:induction false} NumberOfBytes(x: nat, n: nat)
    requires x < Power256(n)
    ensures Number(Bytes(x, n)) == x
  {
    if n > 0 {
      NumberOfBytes(x / 256, n - 1);
      assert Bytes(x, n)[1..] == Bytes(x / 256, n - 1);
    }
  }

  predicate Fits(m: Message) {
    m.fn < Power256(8) && m.dest < Power256(2) && Size(m) < BUFFER_SIZE
  }

  function Size(m: Message): nat {
    HEADER_SIZE + |m.args| + |m.payload|
  }

  /** Function pointer, destination, the two sizes, and padding to the alignment of the pointer. */
  function Header(m: Message): (b: seq<Byte>)
    ensures |b| == HEADER_SIZE
  {
    Bytes(m.fn, 8) + Bytes(m.dest, 2) + Bytes(|m.args| % 65536, 2) + Bytes(|m.payload| % 65536, 2) + [0, 0]
  }

  function Encode(m: Message): (b: seq<Byte>)
    ensures |b| == Size(m)
  {
    Header(m) + m.args + m.payload
  }

  function EncodeAll(ms: seq<Message>): seq<Byte> {
    if ms == [] then [] else Encode(ms[0]) + EncodeAll(ms[1..])
  }

  // ---------- Unpacking a bundle ----------

  function ArgsSize(b: seq<Byte>): nat
    requires |b| >= HEADER_SIZE
  {
    Number(b[10..12])
  }

  function PayloadSize(b: seq<Byte>): nat
    requires |b| >= HEADER_SIZE
  {
    Number(b[12..14])
  }

  function Total(b: seq<Byte>): nat
    requires |b| >= HEADER_SIZE
  {
    HEADER_SIZE + ArgsSize(b) + PayloadSize(b)
  }

  function Decode(b: seq<Byte>): Message
    requires |b| >= HEADER_SIZE && |b| >= Total(b)
  {
    var a := HEADER_SIZE + ArgsSize(b);
    Message(Number(b[..8]), Number(b[8..10]), b[HEADER_SIZE..a], b[a..a + PayloadSize(b)])
  }

  /** The messages of a bundle; bytes that hold no whole message end the walk. */
  function Unpack(b: seq<Byte>): seq<Message>
    decreases |b|
  {
    if |b| < HEADER_SIZE || |b| < Total(b) then [] else [Decode(b)] + Unpack(b[Total(b)..])
  }

  /** The header's fields are where they were written. */
  lemma HeaderParts(m: Message, rest: seq<Byte>)
    ensures var b := Header(m) + rest;
      && b[..8] == Bytes(m.fn, 8) && b[8..10] == Bytes(m.dest, 2)
      && b[10..12] == Bytes(|m.args| % 65536, 2) && b[12..14] == Bytes(|m.payload| % 65536, 2)
  {
    hide Bytes;
  }

  lemma TwoBytes()
    ensures Power256(2) == 65536
  {
  }

  lemma SmallSizes(m: Message)
    requires Fits(m)
    ensures Number(Bytes(|m.args| % 65536, 2)) == |m.args| && Number(Bytes(|m.payload| % 65536, 2)) == |m.payload|
  {
    hide Bytes, Number, Power256;
    TwoBytes();
    NumberOfBytes(|m.args|, 2);
    NumberOfBytes(|m.payload|, 2);
  }

  lemma HeaderFields(m: Message, rest: seq<Byte>)
    requires Fits(m)
    ensures var b := Encode(m) + rest;
      ArgsSize(b) == |m.args| && PayloadSize(b) == |m.payload| && Number(b[..8]) == m.fn && Number(b[8..10]) == m.dest
  {
    hide Bytes, Number, Power256, Header;
    var b := Encode(m) + rest;
    assert b == Header(m) + (m.args + m.payload + rest);
    HeaderParts(m, m.args + m.payload + rest);
    NumberOfBytes(m.fn, 8);
    NumberOfBytes(m.dest, 2);
    SmallSizes(m);
  }

  lemma DecodeFirst(m: Message, rest: seq<Byte>)
    requires Fits(m)
    ensures var b := Encode(m) + rest; Total(b) == Size(m) && Decode(b) == m && b[Total(b)..] == rest
  {
    HeaderFields(m, rest);
    hide Header;
    var b := Encode(m) + rest;
    assert b == Header(m) + m.args + m.payload + rest;
  }

  /** Unpacking a bundle recovers exactly the messages that were packed, in order. */
  lemma {:induction false} UnpackAll(ms: seq<Message>)
    requires forall i :: 0 <= i < |ms| ==> Fits(ms[i])
    ensures Unpack(EncodeAll(ms)) == ms
    decreases |ms|
  {
    if ms != [] {
      DecodeFirst(ms[0], EncodeAll(ms[1..]));
      UnpackAll(ms[1..]);
    }
  }

  lemma {:induction false} EncodeAllSnoc(ms: seq<Message>, m: Message)
    ensures EncodeAll(ms + [m]) == EncodeAll(ms) + Encode(m)
    decreases |ms|
  {
    if ms == [] {
      assert ms + [m] == [m] && EncodeAll([m]) == Encode(m) + EncodeAll([]);
    } else {
      EncodeAllSnoc(ms[1..], m);
      assert (ms + [m])[1..] == ms[1..] + [m];
    }
  }

  function Mine(ms: seq<Message>, core: nat): seq<Message> {
    if ms == [] then [] else (if ms[0].dest == core then [ms[0]] else []) + Mine(ms[1..], core)
  }

  function Others(ms: seq<Message>, core: nat): seq<Message> {
    if ms == [] then [] else (if ms[0].dest == core then [] else [ms[0]]) + Others(ms[1..], core)
  }

  lemma UnpackOne(b: seq<Byte>, core: nat)
    requires |b| >= HEADER_SIZE && |b| >= Total(b)
    ensures var m, rest := Decode(b), Unpack(b[Total(b)..]);
      && Mine(Unpack(b), core) == (if m.dest == core then [m] else []) + Mine(rest, core)
      && Others(Unpack(b), core) == (if m.dest == core then [] else [m]) + Others(rest, core)
  {
    hide Decode, Total;
    assert Unpack(b)[1..] == Unpack(b[Total(b)..]);
  }

  /** `deaggregate`, for one bundle: run the messages for this core, pass the others on. */
  method Deaggregate(b: seq<Byte>, core: nat) returns (run: seq<Message>, forwarded: seq<Message>)
    ensures run == Mine(Unpack(b), core) && forwarded == Others(Unpack(b), core)
  {
    hide Decode, Total;
    run, forwarded := [], [];
    var i := 0;
    while i + HEADER_SIZE <= |b| && i + Total(b[i..]) <= |b|
      invariant 0 <= i <= |b|
      invariant run + Mine(Unpack(b[i..]), core) == Mine(Unpack(b), core)
      invariant forwarded + Others(Unpack(b[i..]), core) == Others(Unpack(b), core)
      decreases |b| - i
    {
      var rest := b[i..];
      var m := Decode(rest);
      UnpackOne(rest, core);
      assert rest[Total(rest)..] == b[i + Total(rest)..];
      if m.dest == core { run := run + [m]; } else { forwarded := forwarded + [m]; }
      i := i + Total(rest);
    }
  }

  // ---------- The aggregator ----------

  datatype Bundle = Bundle(target: nat, bytes: seq<Byte>)

  /** The route map, the buffers by target, the queue, and the bundles handed to the communicator. */
  datatype Agg = Agg(route: seq<nat>, buffers: seq<seq<Byte>>, queue: seq<Item>, sent: seq<Bundle>)

  /** Routes and queued keys are nodes. */
  predicate InRange(a: Agg) {
    && |a.route| == |a.buffers|
    && (forall n :: 0 <= n < |a.route| ==> a.route[n] < |a.buffers|)
    && (forall i :: 0 <= i < |a.queue| ==> a.queue[i].key < |a.buffers|)
  }

  function Keys(queue: seq<Item>): seq<nat> {
    seq(|queue|, i requires 0 <= i < |queue| => queue[i].key)
  }

  /** The queue without a key. */
  function Drop(queue: seq<Item>, t: nat): (r: seq<Item>)
    ensures forall i :: 0 <= i < |r| ==> r[i] in queue
  {
    if queue == [] then [] else if queue[0].key == t then queue[1..] else [queue[0]] + Drop(queue[1..], t)
  }

  /** `flush`, for a target */
  function Flushed(a: Agg, t: nat): Agg
    requires t < |a.buffers|
  {
    a.(sent := a.sent + [Bundle(t, a.buffers[t])], buffers := a.buffers[t := []], queue := Drop(a.queue, t))
  }

  /**
   `aggregate`: when the message does not fit, its target is flushed, which goes through
   the route map again.  The timestamp ts is taken after the message is in; priorities
   are negated timestamps.
   */
  function Aggregated(a: Agg, dest: nat, m: Message, ts: int): Agg
    requires InRange(a) && dest < |a.route|
  {
    var t := a.route[dest];
    Placed(if |a.buffers[t]| + Size(m) < BUFFER_SIZE then a else Flushed(a, a.route[t]), t, m, ts)
  }

  function Placed(a: Agg, t: nat, m: Message, ts: int): Agg
    requires t < |a.buffers|
  {
    a.(buffers := a.buffers[t := a.buffers[t] + Encode(m)],
       queue := Enqueued(a.queue, t, ts))
  }

  function Enqueued(queue: seq<Item>, t: nat, ts: int): seq<Item> {
    if t in Keys(queue) then queue else queue + [Item(t, -ts)]
  }

  lemma EnqueuedInRange(a: Agg, t: nat, ts: int)
    requires InRange(a) && t < |a.route|
    ensures InRange(a.(queue := Enqueued(a.queue, t, ts)))
  {
    hide Keys;
  }

  // ---------- The flush loops ----------

  /** One turn of a flush loop: flush the oldest node, by its route.  It leaves the queue only if that is itself. */
  function FlushedOldest(a: Agg): (r: Agg)
    requires InRange(a) && a.queue != []
    ensures InRange(r) && r.route == a.route
    ensures a.route[a.queue[0].key] == a.queue[0].key ==> r.queue == a.queue[1..]
    ensures a.route[a.queue[0].key] != a.queue[0].key ==> r.queue != [] && r.queue[0] == a.queue[0]
  {
    Flushed(a, a.route[a.queue[0].key])
  }

  /** Every queued node is its own target. */
  predicate OwnTargets(queue: seq<Item>, route: seq<nat>) {
    forall i :: 0 <= i < |queue| ==> queue[i].key < |route| && route[queue[i].key] == queue[i].key
  }

  lemma OwnTail(queue: seq<Item>, route: seq<nat>)
    requires queue != []
    ensures OwnTargets(queue, route) <==>
      queue[0].key < |route| && route[queue[0].key] == queue[0].key && OwnTargets(queue[1..], route)
  {
    if OwnTargets(queue[1..], route) {
      forall i | 1 <= i < |queue| ensures queue[i].key < |route| && route[queue[i].key] == queue[i].key {
        assert queue[i] == queue[1..][i - 1];
      }
    }
  }

  /** What the flush loop of `idle_flush_poll` ends in, if it ends. */
  function Drained(a: Agg): Agg
    requires InRange(a) && OwnTargets(a.queue, a.route)
    decreases |a.queue|
  {
    if a.queue == [] then a
    else
      OwnTail(a.queue, a.route);
      Drained(FlushedOldest(a))
  }

  predicate Expired(x: Item, ticks: int, ts: int) {
    -x.priority + ticks < ts
  }

  /** Every node before the first that has not expired is its own target. */
  predicate ExpiredOwn(queue: seq<Item>, route: seq<nat>, ticks: int, ts: int) {
    queue == [] || !Expired(queue[0], ticks, ts) ||
    (queue[0].key < |route| && route[queue[0].key] == queue[0].key && ExpiredOwn(queue[1..], route, ticks, ts))
  }

  /** Does the flush loop of `poll` go on?  max 0 means that there is no cap. */
  predicate PollGoes(a: Agg, ticks: int, max: nat, flushes: nat, ts: int) {
    a.queue != [] && Expired(a.queue[0], ticks, ts) && (max == 0 || flushes < max)
  }

  /** What bounds the flush loop of `poll`: its cap, or its queue. */
  function PollBound(a: Agg, max: nat, flushes: nat): nat {
    if max == 0 then |a.queue| else if flushes < max then max - flushes else 0
  }

  /** What the flush loop of `poll` ends in, if it ends. */
  function Polled(a: Agg, ticks: int, max: nat, flushes: nat, ts: int): Agg
    requires InRange(a) && (max != 0 || ExpiredOwn(a.queue, a.route, ticks, ts))
    decreases PollBound(a, max, flushes)
  {
    if PollGoes(a, ticks, max, flushes, ts) then Polled(FlushedOldest(a), ticks, max, flushes + 1, ts) else a
  }

  // ---------- The object ----------

  /** Routing again from a target stays there. */
  predicate RouteOk(route: seq<nat>) {
    forall n :: 0 <= n < |route| ==> route[n] < |route| && route[route[n]] == route[n]
  }

  /** No other node is routed to this one. */
  predicate Unused(route: seq<nat>, node: nat) {
    forall x :: 0 <= x < |route| && x != node ==> route[x] != node
  }

  /** Exactly which updates of the route map keep targets and queued nodes their own targets. */
  lemma RouteUpdateIff(route: seq<nat>, queue: seq<Item>, node: nat, target: nat)
    requires RouteOk(route) && OwnTargets(queue, route) && node < |route| && target < |route|
    ensures var r := route[node := target];
      RouteOk(r) && OwnTargets(queue, r) <==>
        target == node || (r[target] == target && node !in Keys(queue) && Unused(r, node))
  {
    var r := route[node := target];
    if target != node {
      assert RouteOk(r) ==> r[r[node]] == r[node];
      if node in Keys(queue) {
        var i :| 0 <= i < |queue| && Keys(queue)[i] == node;
        assert !OwnTargets(queue, r);
      }
      if !Unused(r, node) {
        var x :| 0 <= x < |r| && x != node && r[x] == node;
        assert r[r[x]] != r[x];
      }
    }
    if r[target] == target && (target == node || (node !in Keys(queue) && Unused(r, node))) {
      forall n | 0 <= n < |r| ensures r[n] < |r| && r[r[n]] == r[n] {
        assert route[n] < |route| && route[route[n]] == route[n];
      }
      forall i | 0 <= i < |queue| ensures queue[i].key < |r| && r[queue[i].key] == queue[i].key {
        assert Keys(queue)[i] == queue[i].key;
      }
    }
  }

  lemma KeysOfItems(order: seq<nat>, priority: seq<int>)
    ensures Keys(Items(order, priority)) == order
  {
  }

  lemma NoDupTail(order: seq<nat>)
    requires NoDup(order) && order != []
    ensures NoDup(order[1..])
  {
    forall i, j | 0 <= i < j < |order[1..]| ensures order[1..][i] != order[1..][j] { assert order[i + 1] != order[j + 1]; }
  }

  lemma ItemsTail(order: seq<nat>, priority: seq<int>)
    requires order != []
    ensures Items(order, priority) != [] && Items(order, priority)[0].key == order[0]
    ensures Items(order, priority) == [Items(order, priority)[0]] + Items(order[1..], priority)
  {
  }

  lemma CutCons(order: seq<nat>, i: nat)
    requires 0 < i < |order|
    ensures Cut(order, i) == [order[0]] + Cut(order[1..], i - 1)
  {
  }

  /** Dropping a key from the queue's items is cutting it out of the order. */
  lemma {:induction false} DropIsCut(order: seq<nat>, priority: seq<int>, i: nat)
    requires NoDup(order) && i < |order|
    ensures Drop(Items(order, priority), order[i]) == Items(Cut(order, i), priority)
    decreases |order|
  {
    ItemsTail(order, priority);
    if i == 0 {
      assert Cut(order, 0) == order[1..];
    } else {
      assert order[0] != order[i] && order[1..][i - 1] == order[i];
      NoDupTail(order);
      hide NoDup, Items;
      DropIsCut(order[1..], priority, i - 1);
      CutCons(order, i);
      hide Cut;
      ItemsTail([order[0]] + Cut(order[1..], i - 1), priority);
    }
  }

  lemma {:induction false} DropAbsent(queue: seq<Item>, t: nat)
    requires t !in Keys(queue)
    ensures Drop(queue, t) == queue
    decreases |queue|
  {
    if queue != [] {
      assert Keys(queue)[0] == queue[0].key;
      assert Keys(queue[1..]) == Keys(queue)[1..];
      DropAbsent(queue[1..], t);
    }
  }

  lemma ItemsInRange(order: seq<nat>, older: seq<int>, newer: seq<int>, priority: seq<int>)
    requires Linked(order, older, newer)
    ensures forall i :: 0 <= i < |Items(order, priority)| ==> Items(order, priority)[i].key < |older|
  {
    forall i | 0 <= i < |order| ensures order[i] < |older| {
      NeighboursExist(order, older, newer, i);
    }
  }

  class MessageAggregator {
    var route: seq<nat>
    const buffers: array<seq<Byte>>
    const queue: Queue
    var sent: seq<Bundle>

    ghost predicate Valid()
      reads this, buffers, queue, queue.older, queue.newer, queue.priority
    {
      queue.Valid() && queue.older.Length == buffers.Length && InRange(View())
    }

    ghost function View(): Agg
      reads this, buffers, queue, queue.priority
    {
      Agg(route, buffers[..], queue.View(), sent)
    }

    /** Every node is its own target at first. */
    constructor (n: nat)
      ensures Valid() && View() == Agg(seq(n, i => i), seq(n, _ => []), [], [])
      ensures fresh(buffers) && fresh(queue) && fresh(queue.older) && fresh(queue.newer) && fresh(queue.priority)
    {
      route := seq(n, i => i);
      buffers := new seq<Byte>[n](_ => []);
      queue := new Queue(n);
      sent := [];
      new;
      assert buffers[..] == seq(n, _ => []);
    }

    /** Any node may be routed to any other; RouteUpdateIff says when targets stay their own targets. */
    method UpdateTarget(node: nat, target: nat)
      requires Valid() && node < |route| && target < |route|
      modifies this`route
      ensures Valid() && View() == old(View()).(route := old(route)[node := target])
    {
      route := route[node := target];
    }

    method Flush(node: nat)
      requires Valid() && node < |route|
      modifies this, buffers, queue, queue.older, queue.newer
      ensures Valid() && View() == Flushed(old(View()), old(route)[node])
    {
      var target := route[node];
      sent := sent + [Bundle(target, buffers[target])];
      buffers[target] := [];
      ghost var order, prio := queue.order, queue.priority[..];
      queue.RemoveKey(target);
      KeysOfItems(order, prio);
      if target in order {
        ghost var i := IndexOf(order, target);
        DropIsCut(order, prio, i);
      } else {
        DropAbsent(Items(order, prio), target);
      }
      ItemsInRange(queue.order, queue.older[..], queue.newer[..], queue.priority[..]);
    }

    /** `ok`: the message fits when it is inserted, as a DCHECK says. */
    method Aggregate(dest: nat, m: Message, ts: int) returns (ok: bool)
      requires Valid() && dest < |route| && Fits(m)
      modifies this, buffers, queue, queue.older, queue.newer, queue.priority
      ensures Valid() && View() == Aggregated(old(View()), dest, m, ts)
      ensures var t := old(route)[dest];
        ok <==> old(|buffers[t]|) + Size(m) < BUFFER_SIZE || old(route)[t] == t
    {
      hide Encode, Keys, Drop;
      var target := route[dest];
      ok := true;
      if |buffers[target]| + Size(m) >= BUFFER_SIZE {
        Flush(target);
        ok := |buffers[target]| + Size(m) < BUFFER_SIZE;
      }
      Insert(target, m);
      Enqueue(target, ts);
    }

    /** Queue a target, unless it is queued. */
    method Enqueue(target: nat, ts: int)
      requires Valid() && target < |route|
      modifies queue, queue.older, queue.newer, queue.priority
      ensures Valid() && View() == old(View()).(queue := Enqueued(old(View()).queue, target, ts))
    {
      KeysOfItems(queue.order, queue.priority[..]);
      EnqueuedInRange(View(), target, ts);
      hide Linked, Items, Keys, InRange;
      queue.UpdateOrInsert(target, -ts);
      assert queue.View() == Enqueued(old(View()).queue, target, ts);
    }

    /** Header, arguments and payload go into the buffer one after the other. */
    method Insert(target: nat, m: Message)
      requires Valid() && target < buffers.Length
      modifies buffers
      ensures Valid() && View() == old(View()).(buffers := old(buffers[..])[target := old(buffers[target]) + Encode(m)])
    {
      hide Header;
      buffers[target] := buffers[target] + Header(m);
      buffers[target] := buffers[target] + m.args;
      buffers[target] := buffers[target] + m.payload;
      assert buffers[target] == old(buffers[target]) + Encode(m);
    }

    /** Send everything, oldest first.  The precondition is exactly that the loop ends. */
    method IdleFlush()
      requires Valid() && OwnTargets(View().queue, route)
      modifies this, buffers, queue, queue.older, queue.newer
      ensures Valid() && View() == Drained(old(View()))
    {
      hide Flushed;
      var empty := queue.Empty();
      while !empty
        invariant Valid() && (empty <==> queue.order == []) && OwnTargets(View().queue, route)
        invariant Drained(View()) == Drained(old(View()))
        decreases |queue.View()|
      {
        var key, priority := queue.Top();
        ghost var a := View();
        OwnTail(a.queue, a.route);
        Flush(key);
        assert View() == FlushedOldest(a);
        empty := queue.Empty();
      }
    }

    /**
     Send the buffers that have waited longest, as long as they have waited too long, up
     to a cap.  The precondition is exactly that the loop ends.
     */
    method PollFlush(ticks: int, max: nat, ts: int)
      requires Valid() && (max != 0 || ExpiredOwn(View().queue, route, ticks, ts))
      modifies this, buffers, queue, queue.older, queue.newer
      ensures Valid() && View() == Polled(old(View()), ticks, max, 0, ts)
    {
      hide Flushed;
      var flushes := 0;
      var going := true;
      while going
        invariant Valid() && (max != 0 || ExpiredOwn(View().queue, route, ticks, ts))
        invariant Polled(View(), ticks, max, flushes, ts) == Polled(old(View()), ticks, max, 0, ts)
        invariant !going ==> View() == Polled(old(View()), ticks, max, 0, ts)
        decreases PollBound(View(), max, flushes), going
      {
        var empty := queue.Empty();
        if empty {
          going := false;
        } else {
          var key, priority := queue.Top();
          if -priority + ticks < ts && (max == 0 || flushes < max) {
            ghost var a := View();
            Flush(key);
            assert View() == FlushedOldest(a);
            flushes := flushes + 1;
          } else {
            going := false;
          }
        }
      }
    }
  }
}
