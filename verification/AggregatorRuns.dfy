/**
 Whole runs of the aggregator: bundles carry exactly the messages asked for, in order;
 the queue holds exactly the targets with messages, oldest first; and after a poll
 without a cap no message has waited longer than allowed.
 */
module AggregatorRuns {
  import opened LRQueue
  import opened Aggregator

  /**
   The aggregator and its history: the messages in each buffer, since when it is not
   empty, the messages of each bundle sent, the messages asked for by target, and the
   time.
   */
  datatype Sys = Sys(a: Agg, held: seq<seq<Message>>, since: seq<int>, packed: seq<seq<Message>>,
                     asked: seq<seq<Message>>, now: int)

  datatype Op =
    | Put(dest: nat, m: Message, ts: int)
    | FlushNode(node: nat)
    | Poll(ticks: int, max: nat, ts: int)
    | IdleFlush
    | Route(node: nat, target: nat)

  predicate Sized(s: Sys, n: nat) {
    InRange(s.a) && |s.a.buffers| == n && |s.held| == n && |s.since| == n && |s.asked| == n && |s.packed| == |s.a.sent|
  }

  function FlushedSys(s: Sys, t: nat): Sys
    requires t < |s.a.buffers| && t < |s.held|
  {
    s.(a := Flushed(s.a, t), packed := s.packed + [s.held[t]], held := s.held[t := []])
  }

  /** A message put into a buffer. */
  function PlacedSys(s: Sys, t: nat, m: Message, ts: int): Sys
    requires t < |s.a.buffers| && Sized(s, |s.a.buffers|)
  {
    s.(a := Placed(s.a, t, m, ts),
       held := s.held[t := s.held[t] + [m]], asked := s.asked[t := s.asked[t] + [m]],
       since := if s.held[t] == [] then s.since[t := ts] else s.since, now := ts)
  }

  /** The state in which a message for target t is inserted. */
  function Cleared(s: Sys, t: nat, m: Message): Sys
    requires t < |s.a.buffers| && Sized(s, |s.a.buffers|)
  {
    if |s.a.buffers[t]| + Size(m) < BUFFER_SIZE then s else FlushedSys(s, s.a.route[t])
  }

  function PutSys(s: Sys, dest: nat, m: Message, ts: int): (r: Sys)
    requires dest < |s.a.buffers| && Sized(s, |s.a.buffers|)
    ensures r.a == Aggregated(s.a, dest, m, ts)
  {
    var t := s.a.route[dest];
    PlacedSys(Cleared(s, t, m), t, m, ts)
  }

  function PolledSys(s: Sys, ticks: int, max: nat, flushes: nat, ts: int): (r: Sys)
    requires Sized(s, |s.a.buffers|) && (max != 0 || ExpiredOwn(s.a.queue, s.a.route, ticks, ts))
    ensures r.a == Polled(s.a, ticks, max, flushes, ts)
    decreases PollBound(s.a, max, flushes)
  {
    if PollGoes(s.a, ticks, max, flushes, ts) then
      PolledSys(OldestSys(s), ticks, max, flushes + 1, ts)
    else s
  }

  function OldestSys(s: Sys): (r: Sys)
    requires Sized(s, |s.a.buffers|) && s.a.queue != []
    ensures Sized(r, |s.a.buffers|) && r.a == FlushedOldest(s.a)
  {
    FlushedSys(s, s.a.route[s.a.queue[0].key])
  }

  function DrainedSys(s: Sys): (r: Sys)
    requires Sized(s, |s.a.buffers|) && OwnTargets(s.a.queue, s.a.route)
    ensures r.a == Drained(s.a)
    decreases |s.a.queue|
  {
    if s.a.queue == [] then s
    else
      OwnTail(s.a.queue, s.a.route);
      DrainedSys(OldestSys(s))
  }

  function Init(n: nat): Sys {
    Sys(Agg(seq(n, i => i), seq(n, _ => []), [], []), seq(n, _ => []), seq(n, _ => 0), [], seq(n, _ => []), 0)
  }

  /**
   Nodes exist, messages fit, and the clock does not run backwards.  A poll takes its
   timestamp before it deaggregates, so messages may have come in since.  The conditions
   on the flush loops are exactly that they end.
   */
  predicate Allowed(s: Sys, op: Op) {
    && Sized(s, |s.a.buffers|)
    && match op
       case Put(dest, m, ts) => dest < |s.a.buffers| && Fits(m) && s.now <= ts
       case FlushNode(node) => node < |s.a.buffers|
       case Poll(ticks, max, ts) => max != 0 || ExpiredOwn(s.a.queue, s.a.route, ticks, ts)
       case IdleFlush => OwnTargets(s.a.queue, s.a.route)
       case Route(node, target) => node < |s.a.buffers| && target < |s.a.buffers|
  }

  function Later(t: int, u: int): int {
    if t <= u then u else t
  }

  function Do(s: Sys, op: Op): Sys
    requires Allowed(s, op)
  {
    match op
    case Put(dest, m, ts) => PutSys(s, dest, m, ts)
    case FlushNode(node) => FlushedSys(s, s.a.route[node])
    case Poll(ticks, max, ts) => PolledSys(s.(now := Later(s.now, ts)), ticks, max, 0, ts)
    case IdleFlush => DrainedSys(s)
    case Route(node, target) => s.(a := s.a.(route := s.a.route[node := target]))
  }

  ghost predicate Run(s: Sys, ops: seq<Op>, s': Sys)
    decreases |ops|
  {
    if ops == [] then s' == s
    else Allowed(s, ops[0]) && Run(Do(s, ops[0]), ops[1..], s')
  }

  predicate AllFit(ms: seq<Message>) {
    forall i :: 0 <= i < |ms| ==> Fits(ms[i])
  }

  /** The messages of the bundles sent to t. */
  function SentTo(sent: seq<Bundle>, packed: seq<seq<Message>>, t: nat): seq<Message>
    requires |sent| == |packed|
    decreases |sent|
  {
    if sent == [] then []
    else
      var n := |sent| - 1;
      SentTo(sent[..n], packed[..n], t) + if sent[n].target == t then packed[n] else []
  }

  /** Buffers and bundles are the bytes of their messages, and no message is lost, added or reordered. */
  ghost predicate BytesOk(s: Sys) {
    && Sized(s, |s.a.buffers|)
    && (forall t :: 0 <= t < |s.held| ==> AllFit(s.held[t]) && s.a.buffers[t] == EncodeAll(s.held[t]))
    && (forall i :: 0 <= i < |s.packed| ==> AllFit(s.packed[i]) && s.a.sent[i].bytes == EncodeAll(s.packed[i]))
    && (forall t :: 0 <= t < |s.held| ==> SentTo(s.a.sent, s.packed, t) + s.held[t] == s.asked[t])
  }

  predicate Distinct(queue: seq<Item>) {
    forall i, j :: 0 <= i < j < |queue| ==> queue[i].key != queue[j].key
  }

  predicate Queued(queue: seq<Item>, t: nat) {
    exists i :: 0 <= i < |queue| && queue[i].key == t
  }

  /** Older first: priorities are negated times. */
  predicate Sorted(queue: seq<Item>) {
    forall i, j :: 0 <= i < j < |queue| ==> queue[i].priority >= queue[j].priority
  }

  /** A queued target has messages, and its priority is the time since when, negated. */
  predicate ItemOk(held: seq<seq<Message>>, since: seq<int>, now: int, x: Item) {
    && x.key < |held| && x.key < |since| && held[x.key] != []
    && x.priority == -since[x.key] && since[x.key] <= now
  }

  /** The queue holds exactly the targets with messages, each once, oldest first, with the time each became non-empty. */
  ghost predicate QueueOk(s: Sys) {
    && Sized(s, |s.a.buffers|) && Distinct(s.a.queue)
    && (forall i :: 0 <= i < |s.a.queue| ==> ItemOk(s.held, s.since, s.now, s.a.queue[i]))
    && Sorted(s.a.queue)
    && (forall t :: 0 <= t < |s.held| && s.held[t] != [] ==> Queued(s.a.queue, t))
  }

  lemma {:induction false} DropMembers(queue: seq<Item>, t: nat)
    requires Distinct(queue)
    ensures |Drop(queue, t)| <= |queue|
    ensures forall i :: 0 <= i < |Drop(queue, t)| ==> Drop(queue, t)[i] in queue && Drop(queue, t)[i].key != t
    ensures forall x :: x in queue && x.key != t ==> x in Drop(queue, t)
    decreases |queue|
  {
    if queue != [] {
      assert queue == [queue[0]] + queue[1..];
      assert Distinct(queue[1..]) by {
        forall i, j | 0 <= i < j < |queue[1..]| ensures queue[1..][i].key != queue[1..][j].key { assert queue[i + 1].key != queue[j + 1].key; }
      }
      if queue[0].key != t {
        DropMembers(queue[1..], t);
      } else {
        forall i | 0 <= i < |queue[1..]| ensures queue[1..][i].key != t { assert queue[i + 1].key != queue[0].key; }
      }
    }
  }

  lemma {:induction false} DropKeeps(queue: seq<Item>, t: nat)
    requires Distinct(queue) && Sorted(queue)
    ensures Distinct(Drop(queue, t)) && Sorted(Drop(queue, t))
    decreases |queue|
  {
    if queue != [] {
      var rest := queue[1..];
      TailKeeps(queue);
      if queue[0].key != t {
        DropKeeps(rest, t);
        DropMembers(rest, t);
        ConsKeeps(queue[0], rest, Drop(rest, t));
        assert [queue[0]] + rest == queue;
      }
    }
  }

  lemma TailKeeps(queue: seq<Item>)
    requires Distinct(queue) && Sorted(queue) && queue != []
    ensures Distinct(queue[1..]) && Sorted(queue[1..])
  {
    var rest := queue[1..];
    forall i, j | 0 <= i < j < |rest| ensures rest[i].key != rest[j].key && rest[i].priority >= rest[j].priority {
      assert queue[i + 1].key != queue[j + 1].key && queue[i + 1].priority >= queue[j + 1].priority;
    }
  }

  /** What is left of a tail can go on following the head. */
  lemma ConsKeeps(x: Item, rest: seq<Item>, d: seq<Item>)
    requires Distinct([x] + rest) && Sorted([x] + rest) && Distinct(d) && Sorted(d)
    requires forall i :: 0 <= i < |d| ==> d[i] in rest
    ensures Distinct([x] + d) && Sorted([x] + d)
  {
    forall j | 0 <= j < |d| ensures d[j].key != x.key && x.priority >= d[j].priority {
      var l :| 0 <= l < |rest| && rest[l] == d[j];
      assert ([x] + rest)[0] == x && ([x] + rest)[l + 1] == d[j];
    }
    forall i, j | 0 <= i < j < |[x] + d| ensures ([x] + d)[i].key != ([x] + d)[j].key && ([x] + d)[i].priority >= ([x] + d)[j].priority {
      assert ([x] + d)[j] == d[j - 1];
      if i > 0 { assert ([x] + d)[i] == d[i - 1]; }
    }
  }

  // ---------- Flushing ----------

  lemma SentToSnoc(sent: seq<Bundle>, packed: seq<seq<Message>>, b: Bundle, ms: seq<Message>, t: nat)
    requires |sent| == |packed|
    ensures SentTo(sent + [b], packed + [ms], t) == SentTo(sent, packed, t) + if b.target == t then ms else []
  {
    assert (sent + [b])[..|sent|] == sent && (packed + [ms])[..|packed|] == packed;
  }

  lemma FlushBytes(s: Sys, t: nat)
    requires BytesOk(s) && t < |s.a.buffers|
    ensures BytesOk(FlushedSys(s, t))
  {
    var s' := FlushedSys(s, t);
    forall u: nat | u < |s'.held| ensures SentTo(s'.a.sent, s'.packed, u) + s'.held[u] == s'.asked[u] {
      SentToSnoc(s.a.sent, s.packed, Bundle(t, s.a.buffers[t]), s.held[t], u);
      assert SentTo(s.a.sent, s.packed, u) + s.held[u] == s.asked[u];
    }
    hide EncodeAll, SentTo, AllFit;
    forall u: nat | u < |s'.held| ensures AllFit(s'.held[u]) && s'.a.buffers[u] == EncodeAll(s'.held[u]) {
      NothingEncoded();
    }
  }

  lemma NothingEncoded()
    ensures EncodeAll([]) == [] && AllFit([])
  {
  }

  lemma QueuedAfterDrop(queue: seq<Item>, t: nat, u: nat)
    requires Distinct(queue) && Queued(queue, u) && u != t
    ensures Queued(Drop(queue, t), u)
  {
    DropMembers(queue, t);
    var i :| 0 <= i < |queue| && queue[i].key == u;
    assert queue[i] in Drop(queue, t);
  }

  lemma FlushQueue(s: Sys, t: nat)
    requires QueueOk(s) && t < |s.a.buffers|
    ensures QueueOk(FlushedSys(s, t))
  {
    var s', queue := FlushedSys(s, t), s.a.queue;
    DropKeeps(queue, t);
    DropMembers(queue, t);
    hide Drop, Distinct, Sorted;
    forall i | 0 <= i < |s'.a.queue|
      ensures ItemOk(s'.held, s'.since, s'.now, s'.a.queue[i])
    {
      var j :| 0 <= j < |queue| && queue[j] == s'.a.queue[i];
    }
    forall u: nat | u < |s'.held| && s'.held[u] != [] ensures Queued(s'.a.queue, u) {
      QueuedAfterDrop(queue, t, u);
    }
  }

  // ---------- Putting ----------

  lemma KeyQueued(queue: seq<Item>, t: nat)
    ensures t in Keys(queue) <==> Queued(queue, t)
  {
    if Queued(queue, t) {
      var i :| 0 <= i < |queue| && queue[i].key == t;
      assert Keys(queue)[i] == t;
    }
  }

  lemma PlacedBytes(s: Sys, t: nat, m: Message, ts: int)
    requires BytesOk(s) && t < |s.a.buffers| && Fits(m)
    ensures BytesOk(PlacedSys(s, t, m, ts))
  {
    var s' := PlacedSys(s, t, m, ts);
    EncodeAllSnoc(s.held[t], m);
    FitSnoc(s.held[t], m);
    hide EncodeAll, SentTo, AllFit, Encode, Fits;
    forall u: nat | u < |s'.held| ensures SentTo(s'.a.sent, s'.packed, u) + s'.held[u] == s'.asked[u] {
      assert SentTo(s.a.sent, s.packed, u) + s.held[u] == s.asked[u];
    }
  }

  lemma FitSnoc(ms: seq<Message>, m: Message)
    requires AllFit(ms) && Fits(m)
    ensures AllFit(ms + [m])
  {
    hide Fits;
  }

  /** A new item at the end, later than all others. */
  lemma AppendItem(queue: seq<Item>, t: nat, ts: int)
    requires Distinct(queue) && Sorted(queue) && !Queued(queue, t)
    requires forall i :: 0 <= i < |queue| ==> queue[i].priority >= -ts
    ensures Distinct(queue + [Item(t, -ts)]) && Sorted(queue + [Item(t, -ts)]) && Queued(queue + [Item(t, -ts)], t)
    ensures forall u :: Queued(queue, u) ==> Queued(queue + [Item(t, -ts)], u)
  {
    var queue' := queue + [Item(t, -ts)];
    assert queue'[|queue|].key == t;
    forall u | Queued(queue, u) ensures Queued(queue', u) {
      var i :| 0 <= i < |queue| && queue[i].key == u;
      assert queue'[i].key == u;
    }
  }

  /** Another message for a target that has some. */
  lemma PlacedMoreQueue(s: Sys, t: nat, m: Message, ts: int)
    requires QueueOk(s) && t < |s.a.buffers| && s.now <= ts && s.held[t] != []
    ensures QueueOk(PlacedSys(s, t, m, ts))
  {
    KeyQueued(s.a.queue, t);
    hide Encode, Distinct, Sorted, Keys;
  }

  /** The first message for a target. */
  lemma PlacedFirstQueue(s: Sys, t: nat, m: Message, ts: int)
    requires QueueOk(s) && t < |s.a.buffers| && s.now <= ts && s.held[t] == []
    ensures QueueOk(PlacedSys(s, t, m, ts))
  {
    var s', queue := PlacedSys(s, t, m, ts), s.a.queue;
    FirstItems(s, t, ts);
    AppendItem(queue, t, ts);
    KeyQueued(queue, t);
    hide Encode, Distinct, Sorted, Keys, Queued, ItemOk;
    forall i | 0 <= i < |s'.a.queue| ensures ItemOk(s'.held, s'.since, s'.now, s'.a.queue[i]) {
      OtherItem(s, t, [m], ts, i);
    }
  }

  lemma FirstItems(s: Sys, t: nat, ts: int)
    requires QueueOk(s) && t < |s.a.buffers| && s.now <= ts && s.held[t] == []
    ensures !Queued(s.a.queue, t) && forall i :: 0 <= i < |s.a.queue| ==> s.a.queue[i].priority >= -ts
  {
  }

  lemma OtherItem(s: Sys, t: nat, ms: seq<Message>, ts: int, i: nat)
    requires QueueOk(s) && t < |s.a.buffers| && s.now <= ts && s.held[t] == [] && ms != [] && i <= |s.a.queue|
    ensures ItemOk(s.held[t := ms], s.since[t := ts], ts, if i < |s.a.queue| then s.a.queue[i] else Item(t, -ts))
  {
    hide Distinct, Sorted, Queued;
    if i < |s.a.queue| { assert ItemOk(s.held, s.since, s.now, s.a.queue[i]); }
  }

  lemma PlacedQueue(s: Sys, t: nat, m: Message, ts: int)
    requires QueueOk(s) && t < |s.a.buffers| && s.now <= ts
    ensures QueueOk(PlacedSys(s, t, m, ts))
  {
    if s.held[t] == [] { PlacedFirstQueue(s, t, m, ts); } else { PlacedMoreQueue(s, t, m, ts); }
  }

  lemma PutOk(s: Sys, dest: nat, m: Message, ts: int)
    requires BytesOk(s) && QueueOk(s) && dest < |s.a.buffers| && Fits(m) && s.now <= ts
    ensures BytesOk(PutSys(s, dest, m, ts)) && QueueOk(PutSys(s, dest, m, ts))
  {
    var t := s.a.route[dest];
    FlushBytes(s, s.a.route[t]);
    FlushQueue(s, s.a.route[t]);
    var s1 := Cleared(s, t, m);
    hide BytesOk, QueueOk, PlacedSys, Fits;
    PlacedBytes(s1, t, m, ts);
    PlacedQueue(s1, t, m, ts);
  }

  // ---------- Polling ----------

  lemma OldestOk(s: Sys)
    requires BytesOk(s) && QueueOk(s) && s.a.queue != []
    ensures BytesOk(OldestSys(s)) && QueueOk(OldestSys(s))
  {
    FlushBytes(s, s.a.route[s.a.queue[0].key]);
    FlushQueue(s, s.a.route[s.a.queue[0].key]);
  }

  lemma {:induction false} PolledOk(s: Sys, ticks: int, max: nat, flushes: nat, ts: int)
    requires Sized(s, |s.a.buffers|) && BytesOk(s) && QueueOk(s)
    requires max != 0 || ExpiredOwn(s.a.queue, s.a.route, ticks, ts)
    ensures var s' := PolledSys(s, ticks, max, flushes, ts);
      && BytesOk(s') && QueueOk(s')
      && (max == 0 ==> s'.a.queue == [] || !Expired(s'.a.queue[0], ticks, ts))
    decreases PollBound(s.a, max, flushes)
  {
    hide BytesOk, QueueOk, Expired;
    if PollGoes(s.a, ticks, max, flushes, ts) {
      OldestOk(s);
      hide OldestSys;
      PolledOk(OldestSys(s), ticks, max, flushes + 1, ts);
    }
  }

  lemma {:induction false} DrainedOk(s: Sys)
    requires Sized(s, |s.a.buffers|) && BytesOk(s) && QueueOk(s) && OwnTargets(s.a.queue, s.a.route)
    ensures BytesOk(DrainedSys(s)) && QueueOk(DrainedSys(s)) && DrainedSys(s).a.queue == []
    decreases |s.a.queue|
  {
    hide BytesOk, QueueOk;
    if s.a.queue != [] {
      OldestOk(s);
      OwnTail(s.a.queue, s.a.route);
      hide OldestSys;
      DrainedOk(OldestSys(s));
    }
  }

  lemma RouteKeeps(s: Sys, node: nat, target: nat)
    requires BytesOk(s) && QueueOk(s) && node < |s.a.buffers| && target < |s.a.buffers|
    ensures var s' := s.(a := s.a.(route := s.a.route[node := target])); BytesOk(s') && QueueOk(s')
  {
    hide EncodeAll, SentTo, AllFit, Distinct, Sorted;
  }

  lemma LaterQueue(s: Sys, ts: int)
    requires QueueOk(s) && s.now <= ts
    ensures QueueOk(s.(now := ts))
  {
  }

  // ---------- Runs ----------

  lemma InitOk(n: nat)
    ensures BytesOk(Init(n)) && QueueOk(Init(n))
  {
    NothingEncoded();
  }

  lemma DoOk(s: Sys, op: Op)
    requires BytesOk(s) && QueueOk(s) && Allowed(s, op)
    ensures BytesOk(Do(s, op)) && QueueOk(Do(s, op))
  {
    match op
    case Put(dest, m, ts) => PutOk(s, dest, m, ts);
    case FlushNode(node) => FlushBytes(s, s.a.route[node]); FlushQueue(s, s.a.route[node]);
    case Poll(ticks, max, ts) => LaterQueue(s, Later(s.now, ts)); PolledOk(s.(now := Later(s.now, ts)), ticks, max, 0, ts);
    case IdleFlush => DrainedOk(s);
    case Route(node, target) => RouteKeeps(s, node, target);
  }

  lemma {:induction false} RunOk(s: Sys, ops: seq<Op>, s': Sys)
    requires BytesOk(s) && QueueOk(s) && Run(s, ops, s')
    ensures BytesOk(s') && QueueOk(s')
    decreases |ops|
  {
    hide BytesOk, QueueOk, Do, Allowed;
    if ops != [] {
      DoOk(s, ops[0]);
      RunOk(Do(s, ops[0]), ops[1..], s');
    }
  }

  /** Every bundle unpacks to its messages; for each target those sent and those held are the messages asked for, in order. */
  lemma BundlesCarryTheMessages(n: nat, ops: seq<Op>, s: Sys)
    requires Run(Init(n), ops, s)
    ensures |s.packed| == |s.a.sent| && |s.held| == |s.asked| == |s.a.buffers|
    ensures forall i :: 0 <= i < |s.a.sent| ==> Unpack(s.a.sent[i].bytes) == s.packed[i]
    ensures forall t :: 0 <= t < |s.held| ==> Unpack(s.a.buffers[t]) == s.held[t]
    ensures forall t :: 0 <= t < |s.held| ==> SentTo(s.a.sent, s.packed, t) + s.held[t] == s.asked[t]
  {
    InitOk(n);
    RunOk(Init(n), ops, s);
    forall i | 0 <= i < |s.a.sent| ensures Unpack(s.a.sent[i].bytes) == s.packed[i] { UnpackAll(s.packed[i]); }
    forall t | 0 <= t < |s.held| ensures Unpack(s.a.buffers[t]) == s.held[t] { UnpackAll(s.held[t]); }
  }

  /** The queue holds exactly the targets with messages, each once, in the order in which they became non-empty. */
  lemma QueueIsTheWaitingTargets(n: nat, ops: seq<Op>, s: Sys)
    requires Run(Init(n), ops, s)
    ensures Sized(s, |s.a.buffers|) && Distinct(s.a.queue)
    ensures forall t :: 0 <= t < |s.held| ==> (Queued(s.a.queue, t) <==> s.held[t] != [])
    ensures forall i :: 0 <= i < |s.a.queue| ==>
      s.a.queue[i].key < |s.since| && s.a.queue[i].priority == -s.since[s.a.queue[i].key]
    ensures forall i, j :: 0 <= i < j < |s.a.queue| ==> s.since[s.a.queue[i].key] <= s.since[s.a.queue[j].key]
  {
    InitOk(n);
    RunOk(Init(n), ops, s);
    hide BytesOk;
    forall i, j | 0 <= i < j < |s.a.queue| ensures s.since[s.a.queue[i].key] <= s.since[s.a.queue[j].key] {
      assert s.a.queue[i].priority >= s.a.queue[j].priority;
    }
  }

  /** A poll without a cap leaves no buffer whose oldest message has waited longer than the allowed ticks. */
  lemma PollLeavesNothingExpired(n: nat, ops: seq<Op>, s: Sys, ticks: int, ts: int, t: nat)
    requires Run(Init(n), ops, s) && Allowed(s, Poll(ticks, 0, ts))
    ensures var s' := Do(s, Poll(ticks, 0, ts));
      |s'.held| == |s'.since| && (t < |s'.held| && s'.held[t] != [] ==> s'.since[t] + ticks >= ts)
  {
    InitOk(n);
    RunOk(Init(n), ops, s);
    LaterQueue(s, Later(s.now, ts));
    PolledOk(s.(now := Later(s.now, ts)), ticks, 0, 0, ts);
    var s' := Do(s, Poll(ticks, 0, ts));
    hide BytesOk;
    if t < |s'.held| && s'.held[t] != [] {
      var i :| 0 <= i < |s'.a.queue| && s'.a.queue[i].key == t;
      assert i > 0 ==> s'.a.queue[0].priority >= s'.a.queue[i].priority;
    }
  }

  /** An idle flush sends everything. */
  lemma IdleFlushSendsEverything(n: nat, ops: seq<Op>, s: Sys, t: nat)
    requires Run(Init(n), ops, s) && Allowed(s, IdleFlush)
    ensures var s' := Do(s, IdleFlush); t < |s'.held| ==> s'.held[t] == []
  {
    InitOk(n);
    RunOk(Init(n), ops, s);
    DrainedOk(s);
    NothingQueued(DrainedSys(s), t);
    hide BytesOk, QueueOk, DrainedSys, Init, Run;
  }

  lemma NothingQueued(s: Sys, t: nat)
    requires QueueOk(s) && s.a.queue == []
    ensures t < |s.held| ==> s.held[t] == []
  {
  }

  // ---------- Nothing is sent before it has to be ----------

  /** An expired node is routed to u. */
  predicate ItemDue(queue: seq<Item>, route: seq<nat>, ticks: int, ts: int, u: nat) {
    exists i :: 0 <= i < |queue| && Expired(queue[i], ticks, ts) && queue[i].key < |route| && route[queue[i].key] == u
  }

  /** May this operation send what is buffered for u? */
  ghost predicate Due(s: Sys, op: Op, u: nat)
    requires Allowed(s, op)
  {
    match op
    case Put(dest, m, ts) =>
      var t := s.a.route[dest];
      u == s.a.route[t] && |EncodeAll(s.held[t])| + Size(m) >= BUFFER_SIZE
    case FlushNode(node) => u == s.a.route[node]
    case Poll(ticks, max, ts) =>
      exists x :: 0 <= x < |s.held| && s.held[x] != [] && s.since[x] + ticks < ts && s.a.route[x] == u
    case IdleFlush => true
    case Route(_, _) => false
  }

  lemma DropItems(queue: seq<Item>, t: nat, route: seq<nat>, ticks: int, ts: int, u: nat)
    requires ItemDue(Drop(queue, t), route, ticks, ts, u)
    ensures ItemDue(queue, route, ticks, ts, u)
  {
    var i :| 0 <= i < |Drop(queue, t)| && Expired(Drop(queue, t)[i], ticks, ts)
      && Drop(queue, t)[i].key < |route| && route[Drop(queue, t)[i].key] == u;
    assert Drop(queue, t)[i] in queue;
    var k :| 0 <= k < |queue| && queue[k] == Drop(queue, t)[i];
  }

  lemma {:induction false} PollSends(s: Sys, ticks: int, max: nat, flushes: nat, ts: int, u: nat)
    requires Sized(s, |s.a.buffers|) && (max != 0 || ExpiredOwn(s.a.queue, s.a.route, ticks, ts)) && u < |s.held|
    ensures var s' := PolledSys(s, ticks, max, flushes, ts);
      && |s'.held| == |s.held| && (s'.held[u] == s.held[u] || ItemDue(s.a.queue, s.a.route, ticks, ts, u))
      && (max != 0 ==> |s'.a.sent| <= |s.a.sent| + PollBound(s.a, max, flushes))
    decreases PollBound(s.a, max, flushes)
  {
    hide Drop;
    if PollGoes(s.a, ticks, max, flushes, ts) {
      var s1 := OldestSys(s);
      var t := s.a.route[s.a.queue[0].key];
      PollSends(s1, ticks, max, flushes + 1, ts, u);
      if t == u {
        assert ItemDue(s.a.queue, s.a.route, ticks, ts, u);
      } else if ItemDue(s1.a.queue, s1.a.route, ticks, ts, u) {
        DropItems(s.a.queue, t, s.a.route, ticks, ts, u);
      }
    }
  }

  lemma DueNode(s: Sys, ticks: int, max: nat, ts: int, u: nat)
    requires QueueOk(s) && Allowed(s, Poll(ticks, max, ts)) && ItemDue(s.a.queue, s.a.route, ticks, ts, u)
    ensures Due(s, Poll(ticks, max, ts), u)
  {
    var i :| 0 <= i < |s.a.queue| && Expired(s.a.queue[i], ticks, ts)
      && s.a.queue[i].key < |s.a.route| && s.a.route[s.a.queue[i].key] == u;
    var x := s.a.queue[i].key;
    assert ItemOk(s.held, s.since, s.now, s.a.queue[i]);
    assert 0 <= x < |s.held| && s.held[x] != [] && s.since[x] + ticks < ts && s.a.route[x] == u;
  }

  lemma PutKeeps(s: Sys, dest: nat, m: Message, ts: int, u: nat)
    requires BytesOk(s) && Allowed(s, Put(dest, m, ts)) && u < |s.held|
    ensures var s' := Do(s, Put(dest, m, ts));
      |s'.held| == |s.held| && (s.held[u] <= s'.held[u] || Due(s, Put(dest, m, ts), u))
  {
    hide Drop, EncodeAll, Encode, Keys, SentTo;
    var t := s.a.route[dest];
    assert s.a.buffers[t] == EncodeAll(s.held[t]);
  }

  /**
   What is buffered for a target is sent only when it is due: a message does not fit any
   more, a flush is asked for, somebody's first message is older than the limit, or the
   core is idle.  A poll sends no more bundles than its cap allows.
   */
  lemma SentOnlyWhenDue(n: nat, ops: seq<Op>, s: Sys, op: Op, u: nat)
    requires Run(Init(n), ops, s) && Allowed(s, op) && u < |s.held|
    ensures var s' := Do(s, op);
      && |s'.held| == |s.held| && (s.held[u] <= s'.held[u] || Due(s, op, u))
      && (op.Poll? && op.max != 0 ==> |s'.a.sent| <= |s.a.sent| + op.max)
  {
    InitOk(n);
    RunOk(Init(n), ops, s);
    hide Run, Init;
    match op
    case Put(dest, m, ts) => PutKeeps(s, dest, m, ts, u);
    case FlushNode(node) =>
    case Poll(ticks, max, ts) =>
      hide BytesOk;
      PollSends(s.(now := Later(s.now, ts)), ticks, max, 0, ts, u);
      if ItemDue(s.a.queue, s.a.route, ticks, ts, u) { DueNode(s, ticks, max, ts, u); }
    case IdleFlush => DrainedSized(s);
    case Route(node, target) =>
  }

  lemma {:induction false} DrainedSized(s: Sys)
    requires Sized(s, |s.a.buffers|) && OwnTargets(s.a.queue, s.a.route)
    ensures |DrainedSys(s).held| == |s.held|
    decreases |s.a.queue|
  {
    if s.a.queue != [] {
      OwnTail(s.a.queue, s.a.route);
      DrainedSized(OldestSys(s));
    }
  }
}
