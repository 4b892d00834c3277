/**
 What flat combining promises: every operation is carried by exactly one sync, which
 takes effect before its call returns, and a waiting call is always on a flusher that
 somebody will flush.
 */
module FlatProofs {
  import opened Basics
  import opened FlatCombiner
  import opened Sums

  // ---------- The invariant ----------

  function SyncedSet(syncs: seq<set<Task>>): set<Task>
    decreases |syncs|
  {
    if syncs == [] then {} else SyncedSet(syncs[..|syncs| - 1]) + syncs[|syncs| - 1]
  }

  function Synced(k: Core): set<Task> {
    SyncedSet(k.syncs)
  }

  /** The free list is linked through its flushers, and only through them. */
  predicate Links(o: Obj, free: seq<nat>) {
    && NoDup(free) && (forall f :: f in free ==> f in o.flushers)
    && o.freelist == (if free == [] then None else Some(free[0]))
    && forall i {:trigger free[i]} :: 0 <= i < |free| && free[i] in o.flushers ==>
         o.flushers[free[i]].next == if i + 1 < |free| then Some(free[i + 1]) else None
  }

  /** Every flusher is current, free, or claimed by a sender; only free ones are linked. */
  predicate Kind(k: Core, f: nat) {
    f in k.obj.flushers ==>
      var x := k.obj.flushers[f];
      && f < k.obj.nextId
      && AsNumber(f == k.obj.current) + AsNumber(f in k.free) + AsNumber(x.sender.Some?) == 1
      && (f !in k.free ==> x.next == None) && (f in k.free ==> x.cv == [])
  }

  /** Its waiters are the calls that wait on it; its sender is a call that will flush it, or does. */
  predicate Queue(k: Core, f: nat) {
    f in k.obj.flushers ==>
      var x := k.obj.flushers[f];
      && NoDup(x.cv)
      && (forall t :: t in x.cv ==> t in k.status && k.status[t] == Waiting(f))
      && (x.sender.Some? ==> SenderOk(k, f, x, x.sender.value))
  }

  predicate SenderOk(k: Core, f: nat, x: Flusher, t: Task) {
    && t in k.status
    && (k.status[t] == Woken(f) || (k.status[t].Syncing? && k.status[t].f == f && k.status[t].d == x.delta))
  }

  /** The flusher's operations have not taken effect. */
  predicate Pending(k: Core, f: nat) {
    && f in k.obj.flushers
    && var x := k.obj.flushers[f];
       f == k.obj.current || (x.sender.Some? && !ServedBy(k, x.sender.value))
  }

  predicate ServedBy(k: Core, t: Task) {
    t in k.status && k.status[t].Syncing? && k.status[t].served
  }

  /** What a pending flusher holds is the sum of its operations, and these are nowhere else. */
  ghost predicate Holds(k: Core, f: nat) {
    Pending(k, f) ==>
      var x := k.obj.flushers[f];
      && x.ops <= k.arg.Keys && x.delta == SumOver(k.arg, x.ops)
      && forall t :: t in x.ops ==> t in k.home && k.home[t] == f && t !in Synced(k)
  }

  /** Once its sync has taken effect, its operations are among the synced ones. */
  predicate Carried(k: Core, f: nat) {
    f in k.obj.flushers && k.obj.flushers[f].sender.Some? && ServedBy(k, k.obj.flushers[f].sender.value) ==>
      k.obj.flushers[f].ops <= Synced(k)
  }

  /** Where a call is. */
  predicate Where(k: Core, t: Task) {
    t in k.status ==>
      match k.status[t]
      case Waiting(f) => f in k.obj.flushers && t in k.obj.flushers[f].cv && t in k.obj.flushers[f].ops
      case Woken(f) =>
        && f in k.obj.flushers
        && if k.obj.flushers[f].sender == Some(t) then t in k.obj.flushers[f].ops else t in Synced(k)
      case Syncing(f, d, served) =>
        f in k.obj.flushers && k.obj.flushers[f].sender == Some(t) && t in k.obj.flushers[f].ops
      case Returned => t in Synced(k)
  }

  /** An operation that has not taken effect is kept by the flusher it went to. */
  predicate Kept(k: Core, t: Task) {
    t in k.status && t !in Synced(k) ==>
      t in k.home && Pending(k, k.home[t]) && t in k.obj.flushers[k.home[t]].ops
  }

  function Active(o: Obj): set<nat> {
    set f | f in o.flushers && o.flushers[f].sender.Some?
  }

  ghost predicate Flushers(k: Core) {
    && k.obj.current in k.obj.flushers && Links(k.obj, k.free)
    && (forall f :: Kind(k, f)) && (forall f :: Queue(k, f))
  }

  ghost predicate Operations(k: Core) {
    && (forall f :: Holds(k, f)) && (forall f :: Carried(k, f))
    && (forall t :: Where(k, t)) && (forall t :: Kept(k, t))
  }

  /** No operation is carried by two syncs. */
  predicate Once(syncs: seq<set<Task>>) {
    forall i, j :: 0 <= i < j < |syncs| ==> syncs[i] !! syncs[j]
  }

  ghost predicate Tally(k: Core) {
    && k.status.Keys == k.arg.Keys && Synced(k) <= k.arg.Keys && Once(k.syncs)
    && k.added == SumOver(k.arg, Synced(k))
  }

  /** The invariant, up to e claims that the number in flight does not count yet. */
  ghost predicate InvUpTo(k: Core, e: int) {
    Flushers(k) && Operations(k) && Tally(k) && k.obj.inflight + e == |Active(k.obj)|
  }

  /** Somebody will flush what the waiters of the current flusher wait for. */
  predicate Alive(o: Obj) {
    o.current in o.flushers && (o.flushers[o.current].cv != [] ==> o.inflight > 0)
  }

  ghost predicate Inv(k: Core) {
    InvUpTo(k, 0) && Alive(k.obj)
  }

  lemma InitInv()
    ensures Inv(InitCore())
  {
    var k := InitCore();
    assert Active(k.obj) == {};
    assert SumOver(k.arg, {}) == 0;
  }

  // ---------- The pieces of a step ----------

  /** A new call adds its operation and waits on the current flusher. */
  function Wait(k: Core, t: Task, d: int): Core
    requires k.obj.current in k.obj.flushers
  {
    var s := k.obj.current;
    var x := k.obj.flushers[s];
    k.(obj := k.obj.(flushers := k.obj.flushers[s := x.(delta := x.delta + d, ops := x.ops + {t}, cv := [t] + x.cv)]),
       status := k.status[t := Waiting(s)], arg := k.arg[t := d], home := k.home[t := s])
  }

  /** The first waiter of the current flusher is to flush it; another flusher becomes current. */
  function Handover(k: Core): Core
    requires Named(k.obj) && k.obj.flushers[k.obj.current].cv != []
  {
    var n := k.obj.current;
    var x := k.obj.flushers[n];
    var o := Renew(k.obj);
    k.(obj := o.(flushers := o.flushers[n := x.(sender := Some(x.cv[0]), cv := x.cv[1..])]),
       status := k.status[x.cv[0] := Woken(n)], free := if k.free == [] then [] else k.free[1..])
  }

  /** A call claimed as sender starts the sync. */
  function Begin(k: Core, t: Task, s: nat): Core
    requires s in k.obj.flushers
  {
    k.(status := k.status[t := Syncing(s, k.obj.flushers[s].delta, false)])
  }

  function Broadcast(k: Core, s: nat): Core
    requires s in k.obj.flushers
  {
    k.(obj := k.obj.(flushers := k.obj.flushers[s := k.obj.flushers[s].(cv := [])]),
       status := WakeAll(k.status, k.obj.flushers[s].cv, s))
  }

  /** The sender of a served flusher frees it and returns. */
  function Release(k: Core, t: Task, s: nat): Core
    requires s in k.obj.flushers
  {
    k.(obj := Recycle(Mark(k.obj, s, None), s), status := k.status[t := Returned], free := [s] + k.free)
  }

  // ---------- Waiting ----------

  lemma WaitFlushers(k: Core, t: Task, d: int)
    requires Flushers(k) && t !in k.status
    ensures Flushers(Wait(k, t, d))
  {
    var k' := Wait(k, t, d);
    forall f ensures Kind(k', f) { assert Kind(k, f); }
    assert Kind(k, k.obj.current);
    forall f ensures Queue(k', f) { assert Queue(k, f); }
  }

  lemma WaitHolds(k: Core, t: Task, d: int, f: nat)
    requires Flushers(k) && Tally(k) && t !in k.status && Holds(k, f)
    ensures Holds(Wait(k, t, d), f)
  {
    var k', s := Wait(k, t, d), k.obj.current;
    assert Queue(k, f) && Kind(k, f);
    if Pending(k', f) {
      assert Pending(k, f);
      var ops := k.obj.flushers[f].ops;
      SumSame(k.arg, k'.arg, ops);
      if f == s {
        SumWithout(k'.arg, ops + {t}, t);
        assert ops + {t} - {t} == ops;
      }
    }
  }

  lemma WaitPending(k: Core, t: Task, d: int, f: nat)
    requires Flushers(k) && t !in k.status
    ensures Pending(Wait(k, t, d), f) <==> Pending(k, f)
  {
    assert Queue(k, f) && Kind(k, f);
  }

  lemma WaitOperations(k: Core, t: Task, d: int)
    requires Flushers(k) && Operations(k) && Tally(k) && t !in k.status
    ensures Operations(Wait(k, t, d))
  {
    var k' := Wait(k, t, d);
    forall f ensures Holds(k', f) { WaitHolds(k, t, d, f); }
    forall f ensures Carried(k', f) {
      assert Carried(k, f) && Queue(k, f) && Kind(k, f) && Kind(k, k.obj.current);
    }
    forall u ensures Where(k', u) { assert Where(k, u); }
    forall u ensures Kept(k', u) {
      assert Kept(k, u);
      if u in k.home { WaitPending(k, t, d, k.home[u]); }
      WaitPending(k, t, d, k.obj.current);
    }
  }

  lemma WaitTally(k: Core, t: Task, d: int)
    requires Tally(k) && t !in k.status && k.obj.current in k.obj.flushers
    ensures Tally(Wait(k, t, d))
  {
    SumSame(k.arg, Wait(k, t, d).arg, Synced(k));
  }

  lemma WaitInv(k: Core, t: Task, d: int)
    requires InvUpTo(k, 0) && t !in k.status
    ensures InvUpTo(Wait(k, t, d), 0)
  {
    WaitFlushers(k, t, d);
    WaitOperations(k, t, d);
    WaitTally(k, t, d);
    assert Active(Wait(k, t, d).obj) == Active(k.obj);
  }

  // ---------- Handing over ----------

  lemma FreshCurrent(k: Core)
    requires Flushers(k)
    ensures Named(k.obj) && Got(k.obj) != k.obj.current
    ensures Got(k.obj) in k.obj.flushers ==> k.free != [] && Got(k.obj) == k.free[0]
    ensures k.free != [] ==> Got(k.obj) == k.free[0] && Got(k.obj) in k.obj.flushers
    ensures k.obj.flushers[k.obj.current].sender == None && k.obj.current !in k.free
    ensures Got(k.obj) in k.obj.flushers ==>
      k.obj.flushers[Got(k.obj)].cv == [] && k.obj.flushers[Got(k.obj)].sender == None
  {
    assert Kind(k, k.obj.current) && Kind(k, Got(k.obj));
    if k.free != [] { assert k.free[0] in k.free; }
  }

  lemma HandoverLinks(k: Core)
    requires Flushers(k) && Named(k.obj) && k.obj.flushers[k.obj.current].cv != []
    ensures Links(Handover(k).obj, Handover(k).free)
  {
    var k' := Handover(k);
    FreshCurrent(k);
    if k.free != [] {
      var rest := k.free[1..];
      assert k'.free == rest;
      forall i, j | 0 <= i < j < |rest| ensures rest[i] != rest[j] { assert k.free[i + 1] != k.free[j + 1]; }
      assert k.obj.flushers[k.free[0]].next == if 1 < |k.free| then Some(k.free[1]) else None;
      forall i {:trigger rest[i]} | 0 <= i < |rest|
        ensures rest[i] in k'.obj.flushers
        ensures k'.obj.flushers[rest[i]].next == if i + 1 < |rest| then Some(rest[i + 1]) else None
      {
        assert rest[i] == k.free[i + 1] && k.free[i + 1] in k.free;
        assert k.obj.flushers[k.free[i + 1]].next == if i + 2 < |k.free| then Some(k.free[i + 2]) else None;
      }
    }
  }

  lemma HandoverKind(k: Core, f: nat)
    requires Flushers(k) && Named(k.obj) && k.obj.flushers[k.obj.current].cv != []
    ensures Kind(Handover(k), f)
  {
    var k' := Handover(k);
    FreshCurrent(k);
    assert Kind(k, f) && Kind(k, k.obj.current);
    if k.free != [] {
      assert k.free == [k.free[0]] + k.free[1..];
      assert k.free[0] !in k.free[1..];
    }
  }

  lemma Head(xs: seq<Task>)
    requires xs != [] && NoDup(xs)
    ensures xs == [xs[0]] + xs[1..] && xs[0] !in xs[1..] && NoDup(xs[1..])
  {
    forall i, j | 0 <= i < j < |xs[1..]| ensures xs[1..][i] != xs[1..][j] { assert xs[i + 1] != xs[j + 1]; }
  }

  /** A flusher's queue does not notice another call leaving another queue. */
  lemma QueueFrame(k: Core, k': Core, f: nat, h: Task, n: nat, st: Status)
    requires Queue(k, f) && f in k.obj.flushers && f in k'.obj.flushers && k'.obj.flushers[f] == k.obj.flushers[f]
    requires h in k.status && k.status[h] == Waiting(n) && n != f && k'.status == k.status[h := st]
    ensures Queue(k', f)
  {
    hide NoDup;
  }

  lemma HeadSender(k: Core, k': Core, n: nat)
    requires Queue(k, n) && n in k.obj.flushers && k.obj.flushers[n].cv != [] && n in k'.obj.flushers
    requires var x := k.obj.flushers[n];
      k'.obj.flushers[n] == x.(sender := Some(x.cv[0]), cv := x.cv[1..]) && k'.status == k.status[x.cv[0] := Woken(n)]
    ensures Queue(k', n)
  {
    Head(k.obj.flushers[n].cv);
    hide NoDup;
  }

  lemma HandoverQueue(k: Core, f: nat)
    requires Flushers(k) && Named(k.obj) && k.obj.flushers[k.obj.current].cv != []
    ensures Queue(Handover(k), f)
  {
    var k', n := Handover(k), k.obj.current;
    FreshCurrent(k);
    assert Queue(k, f) && Queue(k, n);
    var h := k.obj.flushers[n].cv[0];
    assert h in k.obj.flushers[n].cv;
    if f == Got(k.obj) {
      assert k'.obj.flushers[f] == EMPTY;
    } else if f == n {
      HeadSender(k, k', n);
    } else if f in k.obj.flushers {
      QueueFrame(k, k', f, h, n, Woken(n));
    }
  }

  lemma HandoverFlushers(k: Core)
    requires Flushers(k) && Named(k.obj) && k.obj.flushers[k.obj.current].cv != []
    ensures Flushers(Handover(k))
  {
    HandoverLinks(k);
    forall f ensures Kind(Handover(k), f) { HandoverKind(k, f); }
    forall f ensures Queue(Handover(k), f) { HandoverQueue(k, f); }
  }

  lemma HandoverPending(k: Core, f: nat)
    requires Flushers(k) && Named(k.obj) && k.obj.flushers[k.obj.current].cv != []
    ensures Pending(Handover(k), f) <==> Pending(k, f) || f == Got(k.obj)
    ensures Pending(k, f) ==> f != Got(k.obj) && Handover(k).obj.flushers[f].ops == k.obj.flushers[f].ops
  {
    var n := k.obj.current;
    FreshCurrent(k);
    assert Kind(k, f) && Queue(k, f) && Queue(k, n);
    Head(k.obj.flushers[n].cv);
  }

  lemma HandoverWhere(k: Core, t: Task)
    requires Flushers(k) && Named(k.obj) && k.obj.flushers[k.obj.current].cv != [] && Where(k, t)
    ensures Where(Handover(k), t)
  {
    var n := k.obj.current;
    FreshCurrent(k);
    assert Queue(k, n);
    Head(k.obj.flushers[n].cv);
    if t in k.status && k.status[t].Waiting? { assert Kind(k, k.status[t].f); }
    if t == k.obj.flushers[n].cv[0] { assert Where(k, t) && t in k.status; }
  }

  lemma HandoverOperations(k: Core)
    requires Flushers(k) && Operations(k) && Named(k.obj) && k.obj.flushers[k.obj.current].cv != []
    ensures Operations(Handover(k))
  {
    var k' := Handover(k);
    forall f ensures Holds(k', f) {
      assert Holds(k, f);
      HandoverPending(k, f);
      FreshCurrent(k);
      assert SumOver(k.arg, {}) == 0;
    }
    forall f ensures Carried(k', f) {
      assert Carried(k, f) && Queue(k, f) && Queue(k, k.obj.current);
      FreshCurrent(k);
      Head(k.obj.flushers[k.obj.current].cv);
    }
    forall t ensures Where(k', t) { assert Where(k, t); HandoverWhere(k, t); }
    forall t ensures Kept(k', t) {
      assert Kept(k, t);
      assert Queue(k, k.obj.current);
      if t in k.home { HandoverPending(k, k.home[t]); }
    }
  }

  lemma HandoverActive(k: Core)
    requires Flushers(k) && Named(k.obj) && k.obj.flushers[k.obj.current].cv != []
    ensures |Active(Handover(k).obj)| == |Active(k.obj)| + 1
    ensures Handover(k).obj.flushers[Handover(k).obj.current] == EMPTY
  {
    FreshCurrent(k);
    hide Flushers;
    OneMoreActive(k.obj, Handover(k).obj, k.obj.current, Got(k.obj));
  }

  lemma OneMoreActive(o: Obj, o': Obj, n: nat, r: nat)
    requires n in o.flushers && o.flushers[n].sender == None && n != r
    requires r in o.flushers ==> o.flushers[r].sender == None
    requires o'.flushers.Keys == o.flushers.Keys + {r} && o'.flushers[r].sender == None && o'.flushers[n].sender.Some?
    requires forall f :: f in o.flushers && f != n && f != r ==> o'.flushers[f] == o.flushers[f]
    ensures |Active(o')| == |Active(o)| + 1
  {
    assert Active(o') == Active(o) + {n};
    assert n !in Active(o);
  }

  lemma HandoverTally(k: Core)
    requires Flushers(k) && Tally(k) && Named(k.obj) && k.obj.flushers[k.obj.current].cv != []
    ensures Tally(Handover(k))
  {
    assert Queue(k, k.obj.current);
    assert k.obj.flushers[k.obj.current].cv[0] in k.obj.flushers[k.obj.current].cv;
    assert Handover(k).status.Keys == k.status.Keys;
  }

  lemma HandoverInv(k: Core)
    requires InvUpTo(k, 0) && Named(k.obj) && k.obj.flushers[k.obj.current].cv != []
    ensures InvUpTo(Handover(k), 1) && Handover(k).obj.flushers[Handover(k).obj.current] == EMPTY
  {
    HandoverFlushers(k);
    HandoverOperations(k);
    HandoverActive(k);
    HandoverTally(k);
    hide Flushers, Operations, Tally, Active;
  }

  // ---------- Starting and serving a sync ----------

  lemma BeginInv(k: Core, t: Task, s: nat, e: int)
    requires InvUpTo(k, e) && s in k.obj.flushers && k.obj.flushers[s].sender == Some(t)
    requires t in k.status && k.status[t] == Woken(s)
    ensures InvUpTo(Begin(k, t, s), e)
  {
    var k' := Begin(k, t, s);
    forall f ensures Kind(k', f) { assert Kind(k, f); }
    forall f ensures Queue(k', f) { assert Queue(k, f); }
    forall f ensures Pending(k', f) <==> Pending(k, f) { assert Queue(k, f); }
    forall f ensures Holds(k', f) { assert Holds(k, f); }
    forall f ensures Carried(k', f) { assert Carried(k, f) && Queue(k, f); }
    forall u ensures Where(k', u) { assert Where(k, u); }
    forall u ensures Kept(k', u) { assert Kept(k, u); }
    assert k'.status.Keys == k.status.Keys;
  }

  lemma SyncedSnoc(syncs: seq<set<Task>>, ops: set<Task>)
    ensures SyncedSet(syncs + [ops]) == SyncedSet(syncs) + ops
  {
    assert (syncs + [ops])[..|syncs|] == syncs;
  }

  lemma {:induction false} SyncedMember(syncs: seq<set<Task>>, i: nat)
    requires i < |syncs|
    ensures syncs[i] <= SyncedSet(syncs)
    decreases |syncs|
  {
    if i < |syncs| - 1 { SyncedMember(syncs[..|syncs| - 1], i); }
  }

  lemma OnceSnoc(syncs: seq<set<Task>>, ops: set<Task>)
    requires Once(syncs) && ops !! SyncedSet(syncs)
    ensures Once(syncs + [ops])
  {
    forall i, j | 0 <= i < j < |syncs + [ops]| ensures (syncs + [ops])[i] !! (syncs + [ops])[j] {
      SyncedMember(syncs, i);
    }
  }

  predicate CanServe(k: Core, t: Task) {
    t in k.status && k.status[t].Syncing? && !k.status[t].served && k.status[t].f in k.obj.flushers && Named(k.obj)
  }

  /** The flusher a call is syncing is claimed by that call, is pending, and no other flusher is. */
  lemma ServeFacts(k: Core, t: Task)
    requires Flushers(k) && Operations(k) && CanServe(k, t)
    ensures var s := k.status[t].f;
      k.obj.flushers[s].sender == Some(t) && Pending(k, s) && k.status[t].d == k.obj.flushers[s].delta && Holds(k, s)
    ensures forall f :: f in k.obj.flushers && k.obj.flushers[f].sender == Some(t) ==> f == k.status[t].f
  {
    var s := k.status[t].f;
    assert Where(k, t) && Queue(k, s) && Holds(k, s);
    forall f | f in k.obj.flushers && k.obj.flushers[f].sender == Some(t) ensures f == s { assert Queue(k, f); }
  }

  lemma ServePending(k: Core, t: Task, f: nat)
    requires Flushers(k) && Operations(k) && CanServe(k, t)
    ensures Pending(Apply(k, Serve(t)), f) <==> Pending(k, f) && f != k.status[t].f
  {
    ServeFacts(k, t);
    assert Kind(k, f);
  }

  lemma ServeHolds(k: Core, t: Task, f: nat)
    requires Flushers(k) && Operations(k) && CanServe(k, t)
    ensures Holds(Apply(k, Serve(t)), f)
  {
    var s := k.status[t].f;
    ServePending(k, t, f);
    ServeFacts(k, t);
    SyncedSnoc(k.syncs, k.obj.flushers[s].ops);
    assert Holds(k, f);
  }

  lemma ServeWhere(k: Core, t: Task, u: Task)
    requires Flushers(k) && Operations(k) && CanServe(k, t)
    ensures Where(Apply(k, Serve(t)), u) && Kept(Apply(k, Serve(t)), u)
  {
    var s := k.status[t].f;
    ServeFacts(k, t);
    SyncedSnoc(k.syncs, k.obj.flushers[s].ops);
    assert Where(k, u) && Kept(k, u) && Where(k, t);
    if u in k.home { ServePending(k, t, k.home[u]); }
  }

  lemma ServeCarried(k: Core, t: Task, f: nat)
    requires Flushers(k) && Operations(k) && CanServe(k, t)
    ensures Carried(Apply(k, Serve(t)), f)
  {
    ServeFacts(k, t);
    SyncedSnoc(k.syncs, k.obj.flushers[k.status[t].f].ops);
    assert Carried(k, f);
  }

  lemma ServeOperations(k: Core, t: Task)
    requires Flushers(k) && Operations(k) && CanServe(k, t)
    ensures Operations(Apply(k, Serve(t)))
  {
    var k' := Apply(k, Serve(t));
    hide Flushers, Holds, Carried, Where, Kept;
    forall f ensures Holds(k', f) && Carried(k', f) { ServeHolds(k, t, f); ServeCarried(k, t, f); }
    forall u ensures Where(k', u) && Kept(k', u) { ServeWhere(k, t, u); }
  }

  lemma ServeTally(k: Core, t: Task)
    requires Flushers(k) && Operations(k) && Tally(k) && CanServe(k, t)
    ensures Tally(Apply(k, Serve(t)))
  {
    ServeFacts(k, t);
    hide Flushers, Operations;
    var s := k.status[t].f;
    var ops := k.obj.flushers[s].ops;
    SyncedSnoc(k.syncs, ops);
    SumUnion(k.arg, Synced(k), ops);
    OnceSnoc(k.syncs, ops);
    hide Once, SumOver, SyncedSet;
    assert Apply(k, Serve(t)).status.Keys == k.status.Keys;
  }

  lemma ServeInv(k: Core, t: Task)
    requires Inv(k) && CanServe(k, t)
    ensures Inv(Apply(k, Serve(t)))
  {
    var k' := Apply(k, Serve(t));
    ServeOperations(k, t);
    ServeTally(k, t);
    ServeFacts(k, t);
    forall f ensures Kind(k', f) { assert Kind(k, f); }
    forall f ensures Queue(k', f) { assert Queue(k, f); }
  }

  // ---------- Ending a flush ----------

  lemma {:induction false} WakeAllStatus(status: map<Task, Status>, ts: seq<Task>, f: nat)
    requires forall t :: t in ts ==> t in status
    ensures WakeAll(status, ts, f).Keys == status.Keys
    ensures forall t :: t in status ==> WakeAll(status, ts, f)[t] == if t in ts then Woken(f) else status[t]
    decreases |ts|
  {
    if ts != [] {
      WakeAllStatus(status[ts[0] := Woken(f)], ts[1..], f);
      assert ts == [ts[0]] + ts[1..];
    }
  }

  /** t is the sender of flusher s, and the sync has taken effect. */
  predicate Done(k: Core, t: Task, s: nat) {
    && Named(k.obj) && s in k.obj.flushers && k.obj.flushers[s].sender == Some(t)
    && t in k.status && k.status[t].Syncing? && k.status[t].served && k.status[t].f == s
  }

  lemma DoneFacts(k: Core, t: Task, s: nat)
    requires Flushers(k) && Operations(k) && Done(k, t, s)
    ensures s != k.obj.current && s !in k.free && !Pending(k, s) && k.obj.flushers[s].ops <= Synced(k)
    ensures k.obj.flushers[s].next == None && t in k.obj.flushers[s].ops
    ensures forall f :: f in k.obj.flushers && k.obj.flushers[f].sender == Some(t) ==> f == s
    ensures forall u :: u in k.obj.flushers[s].cv ==> u in k.status && k.status[u] == Waiting(s) && u in Synced(k)
  {
    assert Kind(k, s) && Carried(k, s) && Where(k, t) && Queue(k, s);
    forall f | f in k.obj.flushers && k.obj.flushers[f].sender == Some(t) ensures f == s { assert Queue(k, f); }
    forall u | u in k.obj.flushers[s].cv ensures u in Synced(k) { assert Where(k, u); }
  }

  lemma BroadcastWhere(k: Core, t: Task, s: nat, u: Task)
    requires Flushers(k) && Operations(k) && Done(k, t, s)
    ensures Where(Broadcast(k, s), u)
  {
    DoneFacts(k, t, s);
    WakeAllStatus(k.status, k.obj.flushers[s].cv, s);
    assert Where(k, u);
  }

  lemma BroadcastPending(k: Core, t: Task, s: nat, f: nat)
    requires Flushers(k) && Operations(k) && Done(k, t, s)
    ensures Pending(Broadcast(k, s), f) <==> Pending(k, f)
  {
    DoneFacts(k, t, s);
    WakeAllStatus(k.status, k.obj.flushers[s].cv, s);
    assert Queue(k, f);
  }

  lemma BroadcastQueue(k: Core, t: Task, s: nat, f: nat)
    requires Flushers(k) && Operations(k) && Done(k, t, s)
    ensures Queue(Broadcast(k, s), f) && Kind(Broadcast(k, s), f)
  {
    DoneFacts(k, t, s);
    WakeAllStatus(k.status, k.obj.flushers[s].cv, s);
    assert Queue(k, f) && Kind(k, f);
  }

  lemma BroadcastHolds(k: Core, t: Task, s: nat, f: nat)
    requires Flushers(k) && Operations(k) && Done(k, t, s)
    ensures Holds(Broadcast(k, s), f) && Carried(Broadcast(k, s), f)
  {
    BroadcastPending(k, t, s, f);
    DoneFacts(k, t, s);
    WakeAllStatus(k.status, k.obj.flushers[s].cv, s);
    assert Holds(k, f) && Carried(k, f) && Queue(k, f);
  }

  lemma BroadcastKept(k: Core, t: Task, s: nat, u: Task)
    requires Flushers(k) && Operations(k) && Done(k, t, s)
    ensures Kept(Broadcast(k, s), u)
  {
    DoneFacts(k, t, s);
    WakeAllStatus(k.status, k.obj.flushers[s].cv, s);
    assert Kept(k, u);
    if u in k.home { BroadcastPending(k, t, s, k.home[u]); }
  }

  lemma BroadcastInv(k: Core, t: Task, s: nat)
    requires InvUpTo(k, 0) && Done(k, t, s)
    ensures InvUpTo(Broadcast(k, s), 0) && Done(Broadcast(k, s), t, s) && Broadcast(k, s).obj.flushers[s].cv == []
  {
    var k' := Broadcast(k, s);
    DoneFacts(k, t, s);
    WakeAllStatus(k.status, k.obj.flushers[s].cv, s);
    forall f ensures Queue(k', f) && Kind(k', f) { BroadcastQueue(k, t, s, f); }
    forall f ensures Holds(k', f) && Carried(k', f) { BroadcastHolds(k, t, s, f); }
    forall u ensures Where(k', u) { BroadcastWhere(k, t, s, u); }
    forall u ensures Kept(k', u) { BroadcastKept(k, t, s, u); }
    assert Active(k'.obj) == Active(k.obj);
  }

  lemma ReleaseLinks(k: Core, t: Task, s: nat)
    requires Flushers(k) && Operations(k) && Done(k, t, s)
    ensures Links(Release(k, t, s).obj, Release(k, t, s).free)
  {
    var k' := Release(k, t, s);
    DoneFacts(k, t, s);
    assert k'.free == [s] + k.free;
    forall i {:trigger k'.free[i]} | 0 <= i < |k'.free|
      ensures k'.obj.flushers[k'.free[i]].next == if i + 1 < |k'.free| then Some(k'.free[i + 1]) else None
    {
      if i > 0 { assert k'.free[i] == k.free[i - 1] && k.free[i - 1] in k.free; }
    }
  }

  lemma ReleaseFlusher(k: Core, t: Task, s: nat, f: nat)
    requires Flushers(k) && Operations(k) && Done(k, t, s) && k.obj.flushers[s].cv == []
    ensures var k' := Release(k, t, s);
      Kind(k', f) && Queue(k', f) && (Pending(k', f) <==> Pending(k, f)) && Holds(k', f) && Carried(k', f)
  {
    DoneFacts(k, t, s);
    assert Kind(k, f) && Queue(k, f) && Holds(k, f) && Carried(k, f);
  }

  lemma ReleaseTask(k: Core, t: Task, s: nat, u: Task)
    requires Flushers(k) && Operations(k) && Done(k, t, s) && k.obj.flushers[s].cv == []
    ensures Where(Release(k, t, s), u) && Kept(Release(k, t, s), u)
  {
    DoneFacts(k, t, s);
    assert Where(k, u) && Kept(k, u);
    if u in k.home { ReleaseFlusher(k, t, s, k.home[u]); }
  }

  lemma ReleaseInv(k: Core, t: Task, s: nat)
    requires InvUpTo(k, 1) && Done(k, t, s) && k.obj.flushers[s].cv == []
    ensures InvUpTo(Release(k, t, s), 0)
  {
    var k' := Release(k, t, s);
    ReleaseLinks(k, t, s);
    forall f ensures Kind(k', f) && Queue(k', f) && Holds(k', f) && Carried(k', f) { ReleaseFlusher(k, t, s, f); }
    forall u ensures Where(k', u) && Kept(k', u) { ReleaseTask(k, t, s, u); }
    assert k'.status.Keys == k.status.Keys;
    assert Active(k'.obj) == Active(k.obj) - {s};
  }

  // ---------- Every step ----------

  function Inflate(k: Core, e: int): Core {
    k.(obj := k.obj.(inflight := k.obj.inflight + e))
  }

  lemma InflateInv(k: Core, e: int, d: int)
    requires InvUpTo(k, e)
    ensures InvUpTo(Inflate(k, d), e - d)
  {
    var k' := Inflate(k, d);
    assert Active(k'.obj) == Active(k.obj);
    forall f ensures Kind(k', f) && Queue(k', f) && Holds(k', f) && Carried(k', f) && (Pending(k', f) <==> Pending(k, f)) {
      assert Kind(k, f) && Queue(k, f) && Holds(k, f) && Carried(k, f);
    }
    forall t ensures Where(k', t) && Kept(k', t) { assert Where(k, t) && Kept(k, t); }
  }

  /** A call that finds its turn come waits, is handed the flusher, and starts, all at once. */
  function FlushNow(k: Core, t: Task, d: int): Core
    requires Named(k.obj)
  {
    var k1 := Wait(k, t, d);
    Begin(Inflate(Handover(k1), 1), t, k.obj.current)
  }

  /** What claiming the current flusher for t leaves, whichever way it came about. */
  function Claimed(o: Obj, t: Task, d: int): Obj
    requires Named(o)
  {
    var x := o.flushers[o.current];
    var o1 := Renew(o);
    o1.(inflight := o.inflight + 1,
        flushers := o1.flushers[o.current := x.(delta := x.delta + d, ops := x.ops + {t}, sender := Some(t))])
  }

  lemma CombinedClaims(o: Obj, t: Task, d: int, full: bool)
    requires Named(o) && Got(o) != o.current && o.flushers[o.current].sender == None && (full || o.inflight == 0)
    ensures Combined(o, t, d, full) == (Claimed(o, t, d), Flushes(o.current, o.flushers[o.current].delta + d))
  {
    assert Combined(o, t, d, full).0.flushers == Claimed(o, t, d).flushers;
  }

  lemma RenewAfter(o: Obj, s: nat, y: Flusher)
    requires Named(o) && s in o.flushers && Got(o) != s
    ensures var o1 := o.(flushers := o.flushers[s := y]);
      Named(o1) && Renew(o1) == Renew(o).(flushers := o.flushers[s := y][Got(o) := EMPTY])
  {
  }

  lemma UpdateTwice(m: map<nat, Flusher>, s: nat, y: Flusher, r: nat, z: Flusher)
    requires r != s
    ensures m[s := y][r := EMPTY][s := z] == m[r := EMPTY][s := z]
  {
  }

  lemma HandoverOfWait(k: Core, t: Task, d: int)
    requires Named(k.obj) && Got(k.obj) != k.obj.current
    ensures Named(Wait(k, t, d).obj)
    ensures var s, k2 := k.obj.current, Handover(Wait(k, t, d));
      && k2.obj == Claimed(k.obj, t, d).(inflight := k.obj.inflight) && k2.arg == k.arg[t := d] && k2.home == k.home[t := s]
      && k2.status == k.status[t := Woken(s)] && k2.free == (if k.free == [] then [] else k.free[1..])
      && k2.syncs == k.syncs && k2.added == k.added
  {
    var s, x := k.obj.current, k.obj.flushers[k.obj.current];
    var y := x.(delta := x.delta + d, ops := x.ops + {t}, cv := [t] + x.cv);
    RenewAfter(k.obj, s, y);
    assert y.cv[1..] == x.cv;
    UpdateTwice(k.obj.flushers, s, y, Got(k.obj), y.(sender := Some(t), cv := x.cv));
  }

  lemma FlushNowClaims(k: Core, t: Task, d: int)
    requires Named(k.obj) && Got(k.obj) != k.obj.current
    ensures var s := k.obj.current;
      FlushNow(k, t, d) == k.(obj := Claimed(k.obj, t, d), arg := k.arg[t := d], home := k.home[t := s],
        status := k.status[t := Syncing(s, k.obj.flushers[s].delta + d, false)],
        free := if k.free == [] then [] else k.free[1..])
  {
    HandoverOfWait(k, t, d);
    hide Handover, Wait;
  }

  lemma CombineFlushes(k: Core, t: Task, d: int, full: bool)
    requires Flushers(k) && Enabled(k, Combine(t, d, full)) && (full || k.obj.inflight == 0)
    ensures Apply(k, Combine(t, d, full)) == FlushNow(k, t, d)
  {
    hide Flushers, Combined, FlushNow;
    FreshCurrent(k);
    CombinedClaims(k.obj, t, d, full);
    FlushNowClaims(k, t, d);
  }

  lemma CombineWaits(k: Core, t: Task, d: int)
    requires Flushers(k) && Enabled(k, Combine(t, d, false)) && k.obj.inflight != 0
    ensures Apply(k, Combine(t, d, false)) == Wait(k, t, d)
  {
    hide Flushers;
    assert Apply(k, Combine(t, d, false)).obj.flushers == Wait(k, t, d).obj.flushers;
  }

  lemma CombineInv(k: Core, t: Task, d: int, full: bool)
    requires Inv(k) && Enabled(k, Combine(t, d, full))
    ensures Inv(Apply(k, Combine(t, d, full)))
  {
    hide Flushers, Operations, Tally, Active, Combined;
    WaitInv(k, t, d);
    if full || k.obj.inflight == 0 {
      CombineFlushes(k, t, d, full);
      var k1 := Wait(k, t, d);
      FreshCurrent(k);
      HandoverInv(k1);
      InflateInv(Handover(k1), 1, 1);
      BeginInv(Inflate(Handover(k1), 1), t, k.obj.current, 0);
    } else {
      CombineWaits(k, t, d);
    }
  }

  lemma FinishHandsOver(k: Core, t: Task, s: nat)
    requires Flushers(k) && Operations(k) && Done(k, t, s) && k.obj.flushers[k.obj.current].cv != []
    requires s != k.obj.current
    ensures Named(Broadcast(k, s).obj) && Apply(k, Finish(t)) == Release(Handover(Broadcast(k, s)), t, s)
  {
    DoneFacts(k, t, s);
    FreshCurrent(k);
    hide Flushers, Operations, WakeAll;
    var k', k'' := Apply(k, Finish(t)), Release(Handover(Broadcast(k, s)), t, s);
    assert k'.obj == k''.obj;
    assert k'.status == k''.status;
  }

  lemma FinishCountsDown(k: Core, t: Task, s: nat)
    requires Flushers(k) && Operations(k) && Done(k, t, s) && k.obj.flushers[k.obj.current].cv == []
    ensures Apply(k, Finish(t)) == Release(Inflate(Broadcast(k, s), -1), t, s)
  {
    DoneFacts(k, t, s);
    FreshCurrent(k);
    hide Flushers, Operations, WakeAll;
    var k', k'' := Apply(k, Finish(t)), Release(Inflate(Broadcast(k, s), -1), t, s);
    assert k'.obj == k''.obj;
  }

  lemma StillDone(k: Core, t: Task, s: nat)
    requires Flushers(k) && Operations(k) && Done(k, t, s) && k.obj.flushers[k.obj.current].cv != []
    ensures Done(Handover(k), t, s) && Handover(k).obj.flushers[s] == k.obj.flushers[s]
  {
    DoneFacts(k, t, s);
    FreshCurrent(k);
    assert Queue(k, k.obj.current);
    assert k.obj.flushers[k.obj.current].cv[0] in k.obj.flushers[k.obj.current].cv;
  }

  lemma FinishInv(k: Core, t: Task)
    requires Inv(k) && Enabled(k, Finish(t))
    ensures Inv(Apply(k, Finish(t)))
  {
    var s := k.status[t].f;
    assert Where(k, t);
    assert Done(k, t, s);
    DoneFacts(k, t, s);
    BroadcastInv(k, t, s);
    var k1 := Broadcast(k, s);
    hide Flushers, Operations, Tally, Active, Flushed;
    if k.obj.flushers[k.obj.current].cv != [] {
      FinishHandsOver(k, t, s);
      HandoverInv(k1);
      StillDone(k1, t, s);
      ReleaseInv(Handover(k1), t, s);
    } else {
      FinishCountsDown(k, t, s);
      InflateInv(k1, 0, -1);
      ReleaseInv(Inflate(k1, -1), t, s);
    }
  }

  /** A woken call that is not the sender returns. */
  lemma ReturnInv(k: Core, t: Task)
    requires Inv(k) && t in k.status && k.status[t].Woken?
    requires k.status[t].f in k.obj.flushers && k.obj.flushers[k.status[t].f].sender != Some(t)
    ensures Inv(k.(status := k.status[t := Returned]))
  {
    var k' := k.(status := k.status[t := Returned]);
    assert Where(k, t);
    forall f ensures Kind(k', f) && Queue(k', f) && (Pending(k', f) <==> Pending(k, f)) && Holds(k', f) && Carried(k', f) {
      assert Kind(k, f) && Queue(k, f) && Holds(k, f) && Carried(k, f);
    }
    forall u ensures Where(k', u) && Kept(k', u) { assert Where(k, u) && Kept(k, u); }
    assert k'.status.Keys == k.status.Keys;
  }

  lemma WakeInv(k: Core, t: Task)
    requires Inv(k) && Enabled(k, Wake(t))
    ensures Inv(Apply(k, Wake(t)))
  {
    var s := k.status[t].f;
    FreshCurrent(k);
    if k.obj.flushers[s].sender == Some(t) {
      assert Apply(k, Wake(t)).obj.flushers == k.obj.flushers;
      assert Apply(k, Wake(t)) == Begin(k, t, s);
      hide Flushers, Operations, Tally, Active;
      BeginInv(k, t, s, 0);
    } else {
      ReturnInv(k, t);
    }
  }

  lemma StepInv(k: Core, step: Step)
    requires Inv(k) && Enabled(k, step)
    ensures Inv(Apply(k, step))
  {
    hide Inv, Apply;
    match step
    case Combine(t, d, full) => CombineInv(k, t, d, full);
    case Serve(t) => ServeInv(k, t);
    case Finish(t) => FinishInv(k, t);
    case Wake(t) => WakeInv(k, t);
  }

  lemma {:induction false} RunInv(k: Core, steps: seq<Step>, k': Core)
    requires Inv(k) && Run(k, steps, k')
    ensures Inv(k')
    decreases |steps|
  {
    hide Inv, Apply, Enabled;
    if steps != [] {
      StepInv(k, steps[0]);
      RunInv(Apply(k, steps[0]), steps[1..], k');
    }
  }

  // ---------- What combining promises ----------

  /** The operation of a call that has returned was carried by exactly one sync. */
  lemma CarriedExactlyOnce(steps: seq<Step>, k: Core, t: Task)
    requires Run(InitCore(), steps, k) && t in k.status && k.status[t] == Returned
    ensures exists i :: 0 <= i < |k.syncs| && t in k.syncs[i] && forall j :: 0 <= j < |k.syncs| && t in k.syncs[j] ==> j == i
  {
    InitInv();
    RunInv(InitCore(), steps, k);
    assert Where(k, t);
    var i := SyncOf(k.syncs, t);
  }

  lemma {:induction false} SyncOf(syncs: seq<set<Task>>, t: Task) returns (i: nat)
    requires t in SyncedSet(syncs)
    ensures i < |syncs| && t in syncs[i]
    decreases |syncs|
  {
    i := |syncs| - 1;
    if t !in syncs[i] { i := SyncOf(syncs[..i], t); }
  }

  /** A waiting call is on a flusher with a sender, or on the current one while something is in flight. */
  lemma WaitersAreServed(steps: seq<Step>, k: Core, t: Task)
    requires Run(InitCore(), steps, k) && t in k.status && k.status[t].Waiting?
    ensures k.status[t].f in k.obj.flushers && t in k.obj.flushers[k.status[t].f].cv
    ensures k.obj.flushers[k.status[t].f].sender.Some? || (k.status[t].f == k.obj.current && k.obj.inflight > 0)
  {
    InitInv();
    RunInv(InitCore(), steps, k);
    assert Where(k, t) && Kind(k, k.status[t].f);
  }

  /** A step that the runtime will take by itself. */
  ghost predicate CanGoOn(k: Core) {
    exists t :: Enabled(k, Serve(t)) || Enabled(k, Finish(t)) || Enabled(k, Wake(t))
  }

  lemma SenderGoesOn(k: Core, f: nat)
    requires Inv(k) && f in k.obj.flushers && k.obj.flushers[f].sender.Some?
    ensures CanGoOn(k)
  {
    var t := k.obj.flushers[f].sender.value;
    FreshCurrent(k);
    assert Queue(k, f);
    assert Enabled(k, Serve(t)) || Enabled(k, Finish(t)) || Enabled(k, Wake(t));
  }

  lemma GoesOn(k: Core, t: Task)
    requires Inv(k) && t in k.status && k.status[t] != Returned
    ensures CanGoOn(k)
  {
    assert Where(k, t);
    FreshCurrent(k);
    match k.status[t]
    case Waiting(f) =>
      assert Kind(k, f);
      if k.obj.flushers[f].sender.Some? {
        SenderGoesOn(k, f);
      } else {
        assert |Active(k.obj)| > 0;
        var g :| g in Active(k.obj);
        SenderGoesOn(k, g);
      }
    case Woken(f) => assert Enabled(k, Wake(t));
    case Syncing(f, d, served) => SenderGoesOn(k, f);
  }

  /** As long as a call has not returned, the combiner can go on without any new call. */
  lemma NobodyStranded(steps: seq<Step>, k: Core, t: Task)
    requires Run(InitCore(), steps, k) && t in k.status && k.status[t] != Returned
    ensures CanGoOn(k)
  {
    InitInv();
    RunInv(InitCore(), steps, k);
    GoesOn(k, t);
  }

  /** What has been added to the count is the sum of the synced operations; when all calls are back, of all of them. */
  lemma AddedIsSum(steps: seq<Step>, k: Core)
    requires Run(InitCore(), steps, k)
    ensures Synced(k) <= k.arg.Keys && k.added == SumOver(k.arg, Synced(k)) && k.status.Keys == k.arg.Keys
    ensures forall t :: t in k.status && k.status[t] == Returned ==> t in Synced(k)
    ensures (forall t :: t in k.status ==> k.status[t] == Returned) ==> k.added == SumOver(k.arg, k.arg.Keys)
  {
    InitInv();
    RunInv(InitCore(), steps, k);
    forall t | t in k.status && k.status[t] == Returned ensures t in Synced(k) { assert Where(k, t); }
    if forall t :: t in k.status ==> k.status[t] == Returned {
      assert Synced(k) == k.arg.Keys;
    }
  }
}
