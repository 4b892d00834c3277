/**
 The aggregator on any route map: exactly when its flush loops end, and exactly when a
 message stays within its buffer.  Both go wrong on maps that route a target elsewhere,
 because flushing a target goes through the route map again.
 */
module AggregatorLoops {
  import opened LRQueue
  import opened Aggregator

  // ---------- The loop of idle_flush_poll ----------

  /** The aggregator after k turns of the loop, or fewer if it ends before. */
  function IdleAfter(a: Agg, k: nat): (r: Agg)
    requires InRange(a)
    ensures InRange(r) && r.route == a.route
    decreases k
  {
    if k == 0 || a.queue == [] then a else IdleAfter(FlushedOldest(a), k - 1)
  }

  ghost predicate IdleEnds(a: Agg)
    requires InRange(a)
  {
    exists k: nat :: IdleAfter(a, k).queue == []
  }

  /** A node that is not its own target stays in the queue, and in the end stays at its head. */
  lemma {:induction false} IdleStuck(a: Agg, k: nat)
    requires InRange(a) && !OwnTargets(a.queue, a.route)
    ensures IdleAfter(a, k).queue != []
    decreases k
  {
    if k > 0 {
      OwnTail(a.queue, a.route);
      IdleStuck(FlushedOldest(a), k - 1);
    }
  }

  lemma {:induction false} IdleDrains(a: Agg)
    requires InRange(a) && OwnTargets(a.queue, a.route)
    ensures IdleAfter(a, |a.queue|) == Drained(a) && Drained(a).queue == []
    decreases |a.queue|
  {
    if a.queue != [] {
      OwnTail(a.queue, a.route);
      IdleDrains(FlushedOldest(a));
    }
  }

  /** The loop ends if and only if every queued node is its own target; then it has sent everything. */
  lemma IdleEndsIff(a: Agg)
    requires InRange(a)
    ensures IdleEnds(a) <==> OwnTargets(a.queue, a.route)
    ensures OwnTargets(a.queue, a.route) ==> IdleAfter(a, |a.queue|) == Drained(a) && Drained(a).queue == []
  {
    if OwnTargets(a.queue, a.route) {
      IdleDrains(a);
    } else {
      forall k: nat ensures IdleAfter(a, k).queue != [] {
        IdleStuck(a, k);
      }
    }
  }

  // ---------- The loop of poll ----------

  /** Does the loop end within k turns? */
  predicate PollEndsIn(a: Agg, ticks: int, max: nat, flushes: nat, ts: int, k: nat)
    requires InRange(a)
    decreases k
  {
    !PollGoes(a, ticks, max, flushes, ts) ||
    (k > 0 && PollEndsIn(FlushedOldest(a), ticks, max, flushes + 1, ts, k - 1))
  }

  ghost predicate PollEnds(a: Agg, ticks: int, max: nat, ts: int)
    requires InRange(a)
  {
    exists k: nat :: PollEndsIn(a, ticks, max, 0, ts, k)
  }

  lemma {:induction false} PollStuck(a: Agg, ticks: int, flushes: nat, ts: int, k: nat)
    requires InRange(a) && !ExpiredOwn(a.queue, a.route, ticks, ts)
    ensures !PollEndsIn(a, ticks, 0, flushes, ts, k)
    decreases k
  {
    if k > 0 {
      PollStuck(FlushedOldest(a), ticks, flushes + 1, ts, k - 1);
    }
  }

  lemma {:induction false} PollFinishes(a: Agg, ticks: int, max: nat, flushes: nat, ts: int)
    requires InRange(a) && (max != 0 || ExpiredOwn(a.queue, a.route, ticks, ts))
    ensures PollEndsIn(a, ticks, max, flushes, ts, PollBound(a, max, flushes))
    ensures !PollGoes(Polled(a, ticks, max, flushes, ts), ticks, max, 0, ts) || max != 0
    decreases PollBound(a, max, flushes)
  {
    if PollGoes(a, ticks, max, flushes, ts) {
      PollFinishes(FlushedOldest(a), ticks, max, flushes + 1, ts);
    }
  }

  /** The loop ends if and only if it has a cap, or every node before the first unexpired one is its own target. */
  lemma PollEndsIff(a: Agg, ticks: int, max: nat, ts: int)
    requires InRange(a)
    ensures PollEnds(a, ticks, max, ts) <==> max != 0 || ExpiredOwn(a.queue, a.route, ticks, ts)
  {
    hide PollEndsIn;
    if max != 0 || ExpiredOwn(a.queue, a.route, ticks, ts) {
      PollFinishes(a, ticks, max, 0, ts);
      var k := PollBound(a, max, 0);
      assert PollEndsIn(a, ticks, max, 0, ts, k);
    } else {
      forall k: nat ensures !PollEndsIn(a, ticks, max, 0, ts, k) {
        PollStuck(a, ticks, 0, ts, k);
      }
    }
  }

  // ---------- Inserting ----------

  /**
   The DCHECK on the insertion holds if and only if the message fits or its target is its
   own target; and the insertion writes within the buffer if and only if the message fits
   exactly or less, or the same.
   */
  lemma InsertFitsIff(a: Agg, dest: nat, m: Message, ts: int)
    requires InRange(a) && dest < |a.route| && Fits(m)
    ensures var t := a.route[dest];
      var filled := |Aggregated(a, dest, m, ts).buffers[t]|;
      && (filled < BUFFER_SIZE <==> |a.buffers[t]| + Size(m) < BUFFER_SIZE || a.route[t] == t)
      && (filled <= BUFFER_SIZE <==> |a.buffers[t]| + Size(m) <= BUFFER_SIZE || a.route[t] == t)
  {
    hide Encode, Drop, Keys;
  }
}
