/**
 Whole runs of the aggregator with a changing route map: which updates keep the flush
 loops ending and the messages within their buffers, and what goes wrong otherwise.
 */
module AggregatorRoutes {
  import opened LRQueue
  import opened Aggregator
  import opened AggregatorLoops
  import opened AggregatorRuns

  // ---------- Careful runs ----------

  /** Targets are their own targets, in the route map and in the queue. */
  predicate Tame(a: Agg) {
    RouteOk(a.route) && OwnTargets(a.queue, a.route)
  }

  /** Does every update of the route map along a run route to a target a node that is neither queued nor a target? */
  ghost predicate Careful(s: Sys, ops: seq<Op>)
    decreases |ops|
  {
    ops == [] ||
    (Allowed(s, ops[0]) && CarefulOp(s.a, ops[0]) && Careful(Do(s, ops[0]), ops[1..]))
  }

  predicate CarefulOp(a: Agg, op: Op) {
    match op
    case Route(node, target) =>
      node < |a.route| && target < |a.route| &&
      (target == node || (a.route[target] == target && node !in Keys(a.queue) && Unused(a.route, node)))
    case _ => true
  }

  lemma DropOwn(queue: seq<Item>, route: seq<nat>, t: nat)
    requires OwnTargets(queue, route)
    ensures OwnTargets(Drop(queue, t), route)
  {
    forall i | 0 <= i < |Drop(queue, t)| ensures OwnKey(Drop(queue, t)[i], route) {
      var j :| 0 <= j < |queue| && queue[j] == Drop(queue, t)[i];
    }
  }

  predicate OwnKey(x: Item, route: seq<nat>) {
    x.key < |route| && route[x.key] == x.key
  }

  lemma {:induction false} PolledTame(a: Agg, ticks: int, max: nat, flushes: nat, ts: int)
    requires InRange(a) && (max != 0 || ExpiredOwn(a.queue, a.route, ticks, ts)) && Tame(a)
    ensures Tame(Polled(a, ticks, max, flushes, ts))
    decreases PollBound(a, max, flushes)
  {
    if PollGoes(a, ticks, max, flushes, ts) {
      DropOwn(a.queue, a.route, a.route[a.queue[0].key]);
      hide OwnTargets, RouteOk;
      PolledTame(FlushedOldest(a), ticks, max, flushes + 1, ts);
    }
  }

  lemma {:induction false} DrainedTame(a: Agg)
    requires InRange(a) && Tame(a)
    ensures Tame(Drained(a))
    decreases |a.queue|
  {
    if a.queue != [] {
      OwnTail(a.queue, a.route);
      DrainedTame(FlushedOldest(a));
    }
  }

  lemma PutTame(a: Agg, dest: nat, m: Message, ts: int)
    requires InRange(a) && Tame(a) && dest < |a.route|
    ensures Tame(Aggregated(a, dest, m, ts))
  {
    DropOwn(a.queue, a.route, a.route[a.route[dest]]);
    hide Drop, Encode, Keys;
  }

  lemma RouteTame(a: Agg, node: nat, target: nat)
    requires InRange(a) && Tame(a) && node < |a.route| && target < |a.route|
    ensures Tame(a.(route := a.route[node := target])) <==> CarefulOp(a, Route(node, target))
  {
    RouteUpdateIff(a.route, a.queue, node, target);
    hide Keys;
    assert Unused(a.route[node := target], node) <==> Unused(a.route, node) by {
      assert forall x :: 0 <= x < |a.route| && x != node ==> a.route[node := target][x] == a.route[x];
    }
  }

  lemma DoTame(s: Sys, op: Op)
    requires Allowed(s, op) && Tame(s.a)
    ensures op.Route? || Tame(Do(s, op).a)
    ensures op.Route? ==> (Tame(Do(s, op).a) <==> CarefulOp(s.a, op))
  {
    match op
    case Put(dest, m, ts) => PutTame(s.a, dest, m, ts); hide Tame;
    case FlushNode(node) => DropOwn(s.a.queue, s.a.route, s.a.route[node]);
    case Poll(ticks, max, ts) => PolledTame(s.a, ticks, max, 0, ts); hide Tame;
    case IdleFlush => DrainedTame(s.a); hide Tame;
    case Route(node, target) => RouteTame(s.a, node, target); hide Tame;
  }

  lemma {:induction false} CarefulTame(s: Sys, ops: seq<Op>, s': Sys)
    requires Tame(s.a) && Run(s, ops, s') && Careful(s, ops)
    ensures Tame(s'.a)
    decreases |ops|
  {
    if ops != [] {
      DoTame(s, ops[0]);
      hide Tame, Do, Allowed, CarefulOp;
      CarefulTame(Do(s, ops[0]), ops[1..], s');
    }
  }

  lemma {:induction false} OwnExpired(queue: seq<Item>, route: seq<nat>, ticks: int, ts: int)
    requires OwnTargets(queue, route)
    ensures ExpiredOwn(queue, route, ticks, ts)
    decreases |queue|
  {
    if queue != [] {
      OwnTail(queue, route);
      OwnExpired(queue[1..], route, ticks, ts);
    }
  }

  lemma CarefulRunTame(n: nat, ops: seq<Op>, s: Sys)
    requires Run(Init(n), ops, s) && Careful(Init(n), ops)
    ensures Sized(s, |s.a.buffers|) && Tame(s.a)
  {
    InitOk(n);
    RunOk(Init(n), ops, s);
    CarefulTame(Init(n), ops, s);
    hide Run, Careful, Tame;
  }

  /**
   After a run that updates the route map only with care, every flush loop ends and every
   message stays within its buffer.
   */
  lemma CarefulRunsAreSafe(n: nat, ops: seq<Op>, s: Sys, ticks: int, max: nat, dest: nat, m: Message, ts: int)
    requires Run(Init(n), ops, s) && Careful(Init(n), ops)
    ensures Allowed(s, IdleFlush) && Allowed(s, Poll(ticks, max, ts))
    ensures dest < |s.a.route| && Fits(m) ==> |Aggregated(s.a, dest, m, ts).buffers[s.a.route[dest]]| < BUFFER_SIZE
  {
    CarefulRunTame(n, ops, s);
    hide Run, Careful, Fits;
    OwnExpired(s.a.queue, s.a.route, ticks, ts);
    if dest < |s.a.route| && Fits(m) {
      InsertFitsIff(s.a, dest, m, ts);
    }
  }

  // ---------- What goes wrong otherwise ----------

  lemma RunTwo(s: Sys, op1: Op, op2: Op)
    requires Allowed(s, op1) && Allowed(Do(s, op1), op2)
    ensures Run(s, [op1, op2], Do(Do(s, op1), op2))
  {
    hide Allowed, Do;
    assert [op1, op2][1..] == [op2] && [op2][1..] == [];
    assert Run(Do(Do(s, op1), op2), [], Do(Do(s, op1), op2));
    assert Run(Do(s, op1), [op2], Do(Do(s, op1), op2));
  }

  /** The first message for a node that is its own target. */
  lemma FirstPut(s: Sys, t: nat, m: Message, ts: int)
    requires Sized(s, |s.a.buffers|) && t < |s.a.buffers| && s.a.route[t] == t && s.a.buffers[t] == [] && s.a.queue == [] && Fits(m)
    ensures var a := PutSys(s, t, m, ts).a;
      && a.route == s.a.route && a.queue == [Item(t, -ts)]
      && a.buffers == s.a.buffers[t := a.buffers[t]] && |a.buffers[t]| == Size(m)
    ensures Sized(PutSys(s, t, m, ts), |s.a.buffers|)
  {
    hide Encode, Drop;
    assert Keys(s.a.queue) == [];
  }

  /** A message waits for node 0 when node 0 is routed to node 1: neither loop ends any more. */
  lemma EndlessFlush(m: Message)
    requires Fits(m)
    ensures exists s ::
      Run(Init(2), [Put(0, m, 0), Route(0, 1)], s) && InRange(s.a) && !IdleEnds(s.a) && !PollEnds(s.a, 0, 0, 1)
  {
    FirstPut(Init(2), 0, m, 0);
    var s1 := Do(Init(2), Put(0, m, 0));
    var s2 := Do(s1, Route(0, 1));
    assert s2.a.queue == [Item(0, 0)] && s2.a.route[0] == 1;
    RunTwo(Init(2), Put(0, m, 0), Route(0, 1));
    hide Run, PollEnds, IdleEnds, PutSys, Fits;
    IdleEndsIff(s2.a);
    PollEndsIff(s2.a, 0, 0, 1);
  }

  /**
   With nodes 0 and 1 routed to each other, a message for node 1 goes to the buffer of
   node 0; a second one that does not fit flushes the buffer of node 1 instead, and is
   written past the end of the first.
   */
  lemma OverrunBuffer(s: Sys, m: Message)
    requires s == Init(2).(a := Init(2).a.(route := [1, 0])) && Fits(m) && 2 * Size(m) > BUFFER_SIZE
    ensures Run(Init(2), [Route(0, 1), Route(1, 0)], s)
    ensures Allowed(s, Put(1, m, 0)) && Allowed(Do(s, Put(1, m, 0)), Put(1, m, 0))
    ensures var s' := Do(Do(s, Put(1, m, 0)), Put(1, m, 0)); |s'.a.buffers| == 2 && |s'.a.buffers[0]| > BUFFER_SIZE
  {
    RunTwo(Init(2), Route(0, 1), Route(1, 0));
    assert seq(2, i => i)[0 := 1][1 := 0] == [1, 0];
    hide Run, Encode, Drop, Keys;
    var s1 := Do(s, Put(1, m, 0));
    assert |s1.a.buffers[0]| == Size(m);
    InsertFitsIff(s1.a, 1, m, 0);
  }
}
