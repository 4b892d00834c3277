/**
 FlatCombiner with GlobalCounter's proxy: operations of one core's tasks are collected
 in the current flusher; one task at a time flushes a collection while the next one
 fills up.  The object with its suspension points, and the state machine of its tasks.
 Every operation is one that must wait for its flush (status BLOCKED).
 */
module FlatCombiner {
  import opened Basics

  /** A collection: the proxy's delta, the tasks whose operations it holds, its sender and its waiters, last first. */
  datatype Flusher = Flusher(next: Option<nat>, delta: int, ops: set<Task>, sender: Option<Task>, cv: seq<Task>)

  const EMPTY: Flusher := Flusher(None, 0, {}, None, [])

  /** The object: its flushers by name, the current one, the number in flight, and the free list. */
  datatype Obj = Obj(flushers: map<nat, Flusher>, current: nat, inflight: int, freelist: Option<nat>, nextId: nat)

  /** A call goes to wait on a flusher, or starts to flush it with its delta, or is over. */
  datatype Outcome = Waits(f: nat) | Flushes(f: nat, d: int) | Returns

  // ---------- The operations ----------

  predicate Named(o: Obj) {
    o.current in o.flushers && (o.freelist.Some? ==> o.freelist.value in o.flushers)
  }

  /** The flusher that `get_flusher` returns. */
  function Got(o: Obj): nat {
    if o.freelist.Some? then o.freelist.value else o.nextId
  }

  /** `get_flusher`, the result becoming current. */
  function Renew(o: Obj): Obj
    requires Named(o)
  {
    if o.freelist.Some?
    then o.(flushers := o.flushers[Got(o) := EMPTY], freelist := o.flushers[Got(o)].next, current := Got(o))
    else o.(flushers := o.flushers[Got(o) := EMPTY], nextId := o.nextId + 1, current := Got(o))
  }

  /** `free_flusher` */
  function Recycle(o: Obj, s: nat): Obj
    requires s in o.flushers
  {
    if o.freelist == None then o.(freelist := Some(s))
    else o.(flushers := o.flushers[s := o.flushers[s].(next := o.freelist)], freelist := Some(s))
  }

  function Mark(o: Obj, s: nat, sender: Option<Task>): Obj
    requires s in o.flushers
  {
    o.(flushers := o.flushers[s := o.flushers[s].(sender := sender)])
  }

  /** The operation itself: add d to the current collection. */
  function Collect(o: Obj, t: Task, d: int): Obj
    requires Named(o)
  {
    var x := o.flushers[o.current];
    o.(flushers := o.flushers[o.current := x.(delta := x.delta + d, ops := x.ops + {t})])
  }

  function Enqueue(o: Obj, s: nat, t: Task): Obj
    requires s in o.flushers
  {
    o.(flushers := o.flushers[s := o.flushers[s].(cv := [t] + o.flushers[s].cv)])
  }

  /** `combine`, up to its suspension. */
  function Combined(o: Obj, t: Task, d: int, full: bool): (Obj, Outcome)
    requires Named(o)
  {
    var s := o.current;
    var o1 := Collect(o, t, d);
    var x := o1.flushers[s];
    if full then
      var o2 := Renew(o1);
      if x.sender == None && s in o2.flushers
      then (Mark(o2.(inflight := o2.inflight + 1), s, Some(t)), Flushes(s, x.delta))
      else if s in o2.flushers then (Enqueue(o2, s, t), Waits(s)) else (o2, Returns)
    else if o1.inflight == 0 then
      var o2 := o1.(inflight := o1.inflight + 1);
      if x.sender == None
      then
        var o3 := Renew(o2);
        (if s in o3.flushers then Mark(o3, s, Some(t)) else o3, Flushes(s, x.delta))
      else (Enqueue(o2, s, t), Waits(s))
    else (Enqueue(o1, s, t), Waits(s))
  }

  /** The rest of `flush`, after the sync: whom it wakes, and whom it makes the next sender. */
  function Flushed(o: Obj, s: nat): (Obj, Option<Task>)
    requires Named(o) && s in o.flushers
  {
    var o1 := o.(flushers := o.flushers[s := o.flushers[s].(cv := [])]);
    var n := o1.current;
    var x := o1.flushers[n];
    var (o2, chosen) :=
      if x.cv != [] && x.sender == None then
        var o2 := Renew(o1);
        (o2.(flushers := o2.flushers[n := x.(sender := Some(x.cv[0]), cv := x.cv[1..])]), Some(x.cv[0]))
      else (o1.(inflight := o1.inflight - 1), None);
    (Recycle(Mark(o2, s, None), s), chosen)
  }

  /** The rest of `combine`, after the wait. */
  function Awake(o: Obj, t: Task, s: nat): (Obj, Outcome)
    requires Named(o) && s in o.flushers
  {
    if o.flushers[s].sender == Some(t) then
      var o1 := if s == o.current then Renew(o) else o;
      (Mark(o1, s, Some(t)), Flushes(s, o1.flushers[s].delta))
    else (o, Returns)
  }

  class Combiner {
    var flushers: map<nat, Flusher>
    var current: nat
    var inflight: int
    var freelist: Option<nat>
    var nextId: nat

    ghost function View(): Obj
      reads this
    {
      Obj(flushers, current, inflight, freelist, nextId)
    }

    constructor ()
      ensures View() == Obj(map[0 := EMPTY], 0, 0, None, 1)
    {
      flushers := map[0 := EMPTY];
      current, inflight, freelist, nextId := 0, 0, None, 1;
    }

    /** A cleared flusher from the free list, or a new one. */
    method GetFlusher() returns (r: nat)
      requires Named(View())
      modifies this
      ensures View().(current := r) == Renew(old(View())) && current == old(current)
    {
      if freelist != None {
        r := freelist.value;
        freelist := flushers[r].next;
      } else {
        r := nextId;
        nextId := nextId + 1;
      }
      flushers := flushers[r := EMPTY];
    }

    method FreeFlusher(s: nat)
      requires s in flushers
      modifies this
      ensures View() == Recycle(old(View()), s)
    {
      if freelist == None {
        freelist := Some(s);
      } else {
        flushers := flushers[s := flushers[s].(next := freelist)];
        freelist := Some(s);
      }
    }

    /** The operation on the current proxy, then flush it or wait, as the flushers in flight demand. */
    method Combine(t: Task, d: int, full: bool) returns (outcome: Outcome)
      requires Named(View()) && (freelist.Some? ==> freelist.value != current) && current != nextId
      modifies this
      ensures (View(), outcome) == Combined(old(View()), t, d, full)
    {
      var s := current;
      var x := flushers[s];
      flushers := flushers[s := x.(delta := x.delta + d, ops := x.ops + {t})];
      if full {
        current := GetFlusher();
        if flushers[s].sender == None {
          inflight := inflight + 1;
          outcome := Flush(t, s);
          return;
        }
      } else if inflight == 0 {
        inflight := inflight + 1;
        if flushers[s].sender == None {
          current := GetFlusher();
          outcome := Flush(t, s);
          return;
        }
      }
      flushers := flushers[s := flushers[s].(cv := [t] + flushers[s].cv)];
      outcome := Waits(s);
    }

    /** The start of a flush: claim the flusher and sync its delta. */
    method Flush(t: Task, s: nat) returns (outcome: Outcome)
      requires s in flushers
      modifies this`flushers
      ensures View() == Mark(old(View()), s, Some(t)) && outcome == Flushes(s, old(flushers)[s].delta)
    {
      flushers := flushers[s := flushers[s].(sender := Some(t))];
      outcome := Flushes(s, flushers[s].delta);
    }

    /** The end of a flush: wake its people, hand over to a waiter of the current flusher or count down, and free it. */
    method FlushDone(s: nat) returns (woken: seq<Task>, chosen: Option<Task>)
      requires Named(View()) && s in flushers && s != current
      requires freelist.Some? ==> freelist.value != s && freelist.value != current
      requires s != nextId && current != nextId
      modifies this
      ensures woken == old(flushers)[s].cv && (View(), chosen) == Flushed(old(View()), s)
    {
      woken := flushers[s].cv;
      flushers := flushers[s := flushers[s].(cv := [])];
      chosen := None;
      var n := current;
      if flushers[n].cv != [] && flushers[n].sender == None {
        current := GetFlusher();
        chosen := Some(flushers[n].cv[0]);
        flushers := flushers[n := flushers[n].(sender := chosen, cv := flushers[n].cv[1..])];
      } else {
        inflight := inflight - 1;
      }
      flushers := flushers[s := flushers[s].(sender := None)];
      FreeFlusher(s);
    }

    method Resume(t: Task, s: nat) returns (outcome: Outcome)
      requires Named(View()) && s in flushers
      requires s == current ==> (freelist.Some? ==> freelist.value != s) && s != nextId
      modifies this
      ensures (View(), outcome) == Awake(old(View()), t, s)
    {
      outcome := Returns;
      if flushers[s].sender == Some(t) {
        if s == current {
          current := GetFlusher();
        }
        outcome := Flush(t, s);
      }
    }
  }

  // ---------- All tasks of a core ----------

  /** A call waits on a flusher, was woken from it, is in its sync (served or not), or has returned. */
  datatype Status = Waiting(f: nat) | Woken(f: nat) | Syncing(f: nat, d: int, served: bool) | Returned

  datatype Core = Core(
    obj: Obj,
    status: map<Task, Status>,
    arg: map<Task, int>,         // what each task adds
    home: map<Task, nat>,        // the flusher its operation went to
    free: seq<nat>,              // the flushers on the free list
    syncs: seq<set<Task>>,       // the syncs that took effect, with the operations each carried
    added: int)                  // what they have added to the master's count

  function InitCore(): Core {
    Core(Obj(map[0 := EMPTY], 0, 0, None, 1), map[], map[], map[], [], [], 0)
  }

  datatype Step = Combine(t: Task, d: int, full: bool) | Serve(t: Task) | Finish(t: Task) | Wake(t: Task)

  predicate Enabled(k: Core, step: Step) {
    && Named(k.obj)
    && match step
       case Combine(t, d, full) => t !in k.status
       case Serve(t) => t in k.status && k.status[t].Syncing? && !k.status[t].served && k.status[t].f in k.obj.flushers
       case Finish(t) => t in k.status && k.status[t].Syncing? && k.status[t].served && k.status[t].f in k.obj.flushers
       case Wake(t) => t in k.status && k.status[t].Woken? && k.status[t].f in k.obj.flushers
  }

  function StatusOf(outcome: Outcome): Status {
    match outcome
    case Waits(f) => Waiting(f)
    case Flushes(f, d) => Syncing(f, d, false)
    case Returns => Returned
  }

  /** The free list after a flusher was taken for current. */
  function Taken(k: Core, o: Obj): seq<nat> {
    if o.current != k.obj.current && k.free != [] then k.free[1..] else k.free
  }

  function WakeAll(status: map<Task, Status>, ts: seq<Task>, f: nat): map<Task, Status>
    decreases |ts|
  {
    if ts == [] then status else WakeAll(status[ts[0] := Woken(f)], ts[1..], f)
  }

  function Apply(k: Core, step: Step): Core
    requires Enabled(k, step)
  {
    match step
    case Combine(t, d, full) =>
      var (o, outcome) := Combined(k.obj, t, d, full);
      k.(obj := o, status := k.status[t := StatusOf(outcome)], arg := k.arg[t := d],
         home := k.home[t := k.obj.current], free := Taken(k, o))
    case Serve(t) =>
      var st := k.status[t];
      k.(status := k.status[t := st.(served := true)], syncs := k.syncs + [k.obj.flushers[st.f].ops], added := k.added + st.d)
    case Finish(t) =>
      var s := k.status[t].f;
      var (o, chosen) := Flushed(k.obj, s);
      var woken := WakeAll(k.status, k.obj.flushers[s].cv, s);
      var woken' := if chosen.Some? then woken[chosen.value := Woken(k.obj.current)] else woken;
      k.(obj := o, status := woken'[t := Returned], free := [s] + Taken(k, o))
    case Wake(t) =>
      var (o, outcome) := Awake(k.obj, t, k.status[t].f);
      k.(obj := o, status := k.status[t := StatusOf(outcome)], free := Taken(k, o))
  }

  ghost predicate Run(k: Core, steps: seq<Step>, k': Core)
    decreases |steps|
  {
    if steps == [] then k' == k
    else Enabled(k, steps[0]) && Run(Apply(k, steps[0]), steps[1..], k')
  }
}
