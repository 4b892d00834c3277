/**
 FetchAddCombiner: tasks of one core combine their fetch-and-adds on one target into a
 single remote one.  The object with its suspension points, and the state machine of
 its tasks: a step runs one task up to its next suspension, or performs the remote add.
 */
module FetchAddCombiner {
  import opened Basics

  // ---------- The object's fields, and what each segment does to them ----------

  datatype Unit = Unit(result: int, increment: int, committed: int, participants: int, readyWaiters: int, outstanding: bool)

  function NewUnit(initVal: int): Unit {
    Unit(0, initVal, 0, 0, 0, false)
  }

  /** `promise` */
  function Promised(u: Unit): Unit {
    u.(committed := u.committed + 1)
  }

  /** Adding my increment while the unit aggregates. */
  function Joined(u: Unit, inc: int): Unit {
    u.(participants := u.participants + 1, committed := u.committed - 1, increment := u.increment + inc)
  }

  /** The task that has just joined starts the flush. */
  predicate Flushes(u: Unit, threshold: nat) {
    u.readyWaiters == 0 && (u.participants >= threshold || u.committed == 0)
  }

  /** Taking my part of the fetched range. */
  function Finished(u: Unit, inc: int): Unit {
    u.(result := u.result + inc, participants := u.participants - 1, increment := u.increment - inc,
       outstanding := u.outstanding && u.participants - 1 != 0)
  }

  class Combiner {
    const threshold: nat
    var result: int
    var increment: int
    var committed: int
    var participants: int
    var readyWaiters: int
    var outstanding: bool

    ghost function View(): Unit
      reads this
    {
      Unit(result, increment, committed, participants, readyWaiters, outstanding)
    }

    constructor (threshold: nat, initVal: int)
      ensures this.threshold == threshold && View() == NewUnit(initVal)
    {
      this.threshold := threshold;
      result, increment, committed, participants, readyWaiters, outstanding := 0, initVal, 0, 0, 0, false;
    }

    method Promise()
      modifies this
      ensures View() == Promised(old(View()))
    {
      committed := committed + 1;
    }

    /** One turn of `block_until_ready`: either register as waiting for the unit, or go on. */
    method TryReady() returns (blocked: bool)
      modifies this
      ensures blocked == old(outstanding)
      ensures View() == if blocked then old(View()).(readyWaiters := old(readyWaiters) + 1) else old(View())
    {
      blocked := outstanding;
      if outstanding { readyWaiters := readyWaiters + 1; }
    }

    /** From `block_until_ready` to the remote call, with its total, or to the wait for the result. */
    method Join(inc: int) returns (total: Option<int>)
      modifies this
      ensures var u := Joined(old(View()), inc);
        if Flushes(u, threshold) then View() == u.(outstanding := true) && total == Some(u.increment)
        else View() == u && total == None
    {
      participants := participants + 1;
      committed := committed - 1;
      increment := increment + inc;
      total := None;
      if readyWaiters == 0 && (participants >= threshold || committed == 0) {
        outstanding := true;
        total := Some(increment);
      }
    }

    method Received(r: int)
      modifies this
      ensures View() == old(View()).(result := r)
    {
      result := r;
    }

    /** From the result's arrival to the return; ready tells that the unit aggregates again. */
    method Finish(inc: int) returns (start: int, ready: bool)
      modifies this
      ensures start == old(result) && View() == Finished(old(View()), inc) && (ready <==> participants == 0)
    {
      start := result;
      result := result + inc;
      participants := participants - 1;
      increment := increment - inc;
      ready := false;
      if participants == 0 {
        outstanding := false;
        ready := true;
      }
    }
  }

  // ---------- All tasks, the target, and the history of adds ----------

  datatype CallStage = Requested(total: int) | Answered(r: int)

  /** One client's share of an add: a task of the combiner, or someone else's add on the same target. */
  datatype Entry = Entry(task: Option<Task>, inc: int, start: int)

  /** One add on the target: the value it fetched, what it added, and how the shares were handed out. */
  datatype Block = Block(base: int, total: int, extra: int, taken: seq<Entry>)

  datatype Sys = Sys(
    unit: Unit,
    target: int,
    inc: map<Task, int>,            // the argument of every task inside fetch_and_add
    promised: set<Task>,
    cvReady: set<Task>,             // suspended until the unit is not outstanding
    wokenReady: set<Task>,          // woken from there, not yet run
    cvReceived: set<Task>,          // suspended until the result is received
    woken: set<Task>,               // woken from there, not yet run
    calls: map<Task, CallStage>,    // blocked in the remote call
    done: map<Task, int>,           // returned, with the start each was given
    log: seq<Block>,                // the adds on the target, in order
    open: Option<nat>)              // the add whose shares are being handed out

  datatype Params = Params(threshold: nat, initVal: int)

  predicate Init(p: Params, s: Sys) {
    && s.unit == NewUnit(p.initVal) && s.inc == map[] && s.calls == map[] && s.done == map[]
    && s.promised == {} && s.cvReady == {} && s.wokenReady == {} && s.cvReceived == {} && s.woken == {}
    && s.log == [] && s.open == None
  }

  function Participants(s: Sys): set<Task> {
    s.cvReceived + s.woken + s.calls.Keys
  }

  function Waiters(s: Sys): set<Task> {
    s.cvReady + s.wokenReady
  }

  // ---------- Steps ----------

  datatype Step = Promise(t: Task) | Enter(t: Task, k: int) | Retry(t: Task) | Serve(t: Task) | Reply(t: Task) | Resume(t: Task)
                | Other(k: int)

  predicate Enabled(s: Sys, step: Step) {
    match step
    case Promise(t) => t !in s.promised && t !in s.inc && t !in s.done
    case Enter(t, k) => t in s.promised
    case Retry(t) => t in s.wokenReady && t in s.inc
    case Serve(t) => t in s.calls && s.calls[t].Requested?
    case Reply(t) => t in s.calls && s.calls[t].Answered? && t in s.inc
    case Resume(t) => t in s.woken && t in s.inc
    case Other(k) => true
  }

  /** t, with its argument recorded, joins the participants. */
  function Join(p: Params, s: Sys, t: Task): Sys
    requires t in s.inc
  {
    var u := Joined(s.unit, s.inc[t]);
    if Flushes(u, p.threshold)
    then s.(unit := u.(outstanding := true), calls := s.calls[t := Requested(u.increment)])
    else s.(unit := u, cvReceived := s.cvReceived + {t})
  }

  /** t, with its argument recorded, waits for the unit if it is outstanding. */
  function BlockOrJoin(p: Params, s: Sys, t: Task): Sys
    requires t in s.inc
  {
    if s.unit.outstanding
    then s.(unit := s.unit.(readyWaiters := s.unit.readyWaiters + 1), cvReady := s.cvReady + {t})
    else Join(p, s, t)
  }

  function Hand(log: seq<Block>, open: Option<nat>, e: Entry): seq<Block> {
    if open.Some? && open.value < |log| then
      var b := log[open.value];
      log[open.value := b.(taken := b.taken + [e])]
    else log
  }

  /** t takes its share and returns; the last participant lets the waiters in. */
  function Finish(s: Sys, t: Task): Sys
    requires t in s.inc
  {
    var u := Finished(s.unit, s.inc[t]);
    var s' := s.(unit := u, inc := s.inc - {t}, done := s.done[t := s.unit.result],
                 log := Hand(s.log, s.open, Entry(Some(t), s.inc[t], s.unit.result)));
    if u.participants == 0
    then s'.(wokenReady := s.wokenReady + s.cvReady, cvReady := {}, open := None)
    else s'
  }

  function Apply(p: Params, s: Sys, step: Step): Sys
    requires Enabled(s, step)
  {
    match step
    case Promise(t) => s.(unit := Promised(s.unit), promised := s.promised + {t})
    case Enter(t, k) => BlockOrJoin(p, s.(promised := s.promised - {t}, inc := s.inc[t := k]), t)
    case Retry(t) =>
      BlockOrJoin(p, s.(unit := s.unit.(readyWaiters := s.unit.readyWaiters - 1), wokenReady := s.wokenReady - {t}), t)
    case Serve(t) =>
      var total := s.calls[t].total;
      s.(target := s.target + total, calls := s.calls[t := Answered(s.target)],
         log := s.log + [Block(s.target, total, p.initVal, [])], open := Some(|s.log|))
    case Reply(t) =>
      var s1 := s.(unit := s.unit.(result := s.calls[t].r), calls := s.calls - {t},
                   woken := s.woken + s.cvReceived, cvReceived := {});
      Finish(s1, t)
    case Resume(t) => Finish(s.(woken := s.woken - {t}), t)
    case Other(k) =>
      s.(target := s.target + k, log := s.log + [Block(s.target, k, 0, [Entry(None, k, s.target)])])
  }

  ghost predicate Run(p: Params, s: Sys, steps: seq<Step>, s': Sys)
    decreases |steps|
  {
    if steps == [] then s' == s
    else Enabled(s, steps[0]) && Run(p, Apply(p, s, steps[0]), steps[1..], s')
  }
}
