/** Flat combining gets done: from every state every call can return; and a full collection takes no more operations. */
module FlatProgress {
  import opened Basics
  import opened FlatCombiner
  import opened FlatProofs
  import opened Sums

  // ---------- A full collection ----------

  /** After an operation that fills its collection, the current one is another, and empty. */
  lemma FullIsReplaced(steps: seq<Step>, k: Core, t: Task, d: int)
    requires Run(InitCore(), steps, k) && t !in k.status
    ensures Enabled(k, Combine(t, d, true))
    ensures var k' := Apply(k, Combine(t, d, true));
      && k'.obj.current != k.obj.current && k'.obj.current in k'.obj.flushers && k'.obj.flushers[k'.obj.current].ops == {}
      && k.obj.current in k'.obj.flushers && t in k'.obj.flushers[k.obj.current].ops
  {
    InitInv();
    RunInv(InitCore(), steps, k);
    FreshCurrent(k);
    hide Run, Inv;
  }

  lemma RenewKeys(o: Obj)
    requires Named(o) && o.freelist.Some?
    ensures Renew(o).flushers.Keys == o.flushers.Keys
  {
  }

  lemma FlushedKeys(o: Obj, s: nat)
    requires Named(o) && s in o.flushers && (o.freelist.Some? || o.flushers[o.current].cv == [])
    ensures Flushed(o, s).0.flushers.Keys == o.flushers.Keys
  {
  }

  /** Flushers are used again: no step makes a new one while one is free. */
  lemma FlushersAreReused(steps: seq<Step>, k: Core, step: Step)
    requires Run(InitCore(), steps, k) && Enabled(k, step) && k.free != []
    ensures Apply(k, step).obj.flushers.Keys == k.obj.flushers.Keys
  {
    InitInv();
    RunInv(InitCore(), steps, k);
    assert k.obj.freelist.Some?;
    hide Run, Inv;
    match step
    case Combine(t, d, full) =>
    case Serve(t) =>
    case Finish(t) => FlushedKeys(k.obj, k.status[t].f);
    case Wake(t) =>
  }

  // ---------- How much is left to do ----------

  function Rank(st: Status): nat {
    match st
    case Waiting(_) => 4
    case Woken(_) => 3
    case Syncing(_, _, served) => if served then 1 else 2
    case Returned => 0
  }

  ghost function Ranks(status: map<Task, Status>, ts: set<Task>): nat
    requires ts <= status.Keys
  {
    if ts == {} then 0
    else
      var t :| t in ts;
      Rank(status[t]) + Ranks(status, ts - {t})
  }

  lemma {:induction false} RanksWithout(status: map<Task, Status>, ts: set<Task>, t: Task)
    requires ts <= status.Keys && t in ts
    ensures Ranks(status, ts) == Rank(status[t]) + Ranks(status, ts - {t})
    decreases ts
  {
    hide Rank;
    var u :| u in ts && Ranks(status, ts) == Rank(status[u]) + Ranks(status, ts - {u});
    if u != t {
      RanksWithout(status, ts - {u}, t);
      RanksWithout(status, ts - {t}, u);
      assert ts - {u} - {t} == ts - {t} - {u};
    }
  }

  lemma {:induction false} RanksMonotone(status: map<Task, Status>, status': map<Task, Status>, ts: set<Task>)
    requires ts <= status.Keys && ts <= status'.Keys && forall t :: t in ts ==> Rank(status'[t]) <= Rank(status[t])
    ensures Ranks(status', ts) <= Ranks(status, ts)
    decreases ts
  {
    if ts != {} {
      var t :| t in ts;
      RanksWithout(status, ts, t);
      RanksWithout(status', ts, t);
      RanksMonotone(status, status', ts - {t});
    }
  }

  ghost function Work(k: Core): nat {
    Ranks(k.status, k.status.Keys)
  }

  lemma LessWork(k: Core, k': Core, t: Task)
    requires k'.status.Keys == k.status.Keys && t in k.status && Rank(k'.status[t]) < Rank(k.status[t])
    requires forall u :: u in k.status ==> Rank(k'.status[u]) <= Rank(k.status[u])
    ensures Work(k') < Work(k)
  {
    var ts := k.status.Keys;
    RanksWithout(k.status, ts, t);
    RanksWithout(k'.status, ts, t);
    RanksMonotone(k.status, k'.status, ts - {t});
  }

  /** The steps that need no new call. */
  predicate GoingOn(step: Step) {
    !step.Combine?
  }

  lemma AwakeRank(o: Obj, t: Task, s: nat)
    requires Named(o) && s in o.flushers
    ensures Rank(StatusOf(Awake(o, t, s).1)) <= 2
  {
  }

  lemma FinishStatus(k: Core, t: Task)
    requires Inv(k) && Enabled(k, Finish(t))
    ensures var k' := Apply(k, Finish(t));
      && k'.status.Keys == k.status.Keys && k'.status[t] == Returned
      && forall u :: u in k.status && u != t ==> k'.status[u] == k.status[u] || (k.status[u].Waiting? && k'.status[u].Woken?)
  {
    var s := k.status[t].f;
    var cv := k.obj.flushers[s].cv;
    assert Queue(k, s) && Queue(k, k.obj.current);
    WakeAllStatus(k.status, cv, s);
    ChosenWaits(k, s);
    hide Inv, Queue, WakeAll, Renew, Recycle, Mark;
  }

  /** Whoever is made the next sender was waiting on the current flusher. */
  lemma ChosenWaits(k: Core, s: nat)
    requires Named(k.obj) && s in k.obj.flushers && Queue(k, k.obj.current)
    ensures var chosen := Flushed(k.obj, s).1;
      chosen.Some? ==> chosen.value in k.status && k.status[chosen.value] == Waiting(k.obj.current)
  {
    hide Renew, Recycle;
  }

  lemma StepWork(k: Core, step: Step)
    requires Inv(k) && Enabled(k, step) && GoingOn(step)
    ensures Work(Apply(k, step)) < Work(k)
  {
    var k' := Apply(k, step);
    match step {
      case Serve(t) =>
      case Finish(t) => FinishStatus(k, t); hide Apply;
      case Wake(t) => AwakeRank(k.obj, t, k.status[t].f); hide Awake;
    }
    hide Inv;
    LessWork(k, k', step.t);
  }

  lemma NextStep(k: Core) returns (step: Step)
    requires CanGoOn(k)
    ensures Enabled(k, step) && GoingOn(step)
  {
    hide Enabled;
    var t :| Enabled(k, Serve(t)) || Enabled(k, Finish(t)) || Enabled(k, Wake(t));
    step := if Enabled(k, Serve(t)) then Serve(t) else if Enabled(k, Finish(t)) then Finish(t) else Wake(t);
  }

  lemma RunCons(k: Core, step: Step, rest: seq<Step>, k': Core)
    requires Enabled(k, step) && Run(Apply(k, step), rest, k')
    ensures Run(k, [step] + rest, k')
  {
    assert ([step] + rest)[1..] == rest;
  }

  lemma SameCalls(k: Core, step: Step)
    requires Inv(k) && Enabled(k, step) && GoingOn(step)
    ensures Apply(k, step).status.Keys == k.status.Keys && Apply(k, step).arg == k.arg
  {
    if step.Finish? { FinishStatus(k, step.t); }
    hide Inv;
  }

  predicate AllReturned(k: Core) {
    forall t :: t in k.status ==> k.status[t] == Returned
  }

  lemma {:induction false} Onward(k: Core) returns (more: seq<Step>, k': Core)
    requires Inv(k)
    ensures Run(k, more, k') && (forall i :: 0 <= i < |more| ==> GoingOn(more[i]))
    ensures Inv(k') && AllReturned(k') && k'.status.Keys == k.status.Keys && k'.arg == k.arg
    decreases Work(k)
  {
    if AllReturned(k) {
      more, k' := [], k;
    } else {
      var t :| t in k.status && k.status[t] != Returned;
      GoesOn(k, t);
      var step := NextStep(k);
      StepWork(k, step);
      SameCalls(k, step);
      StepInv(k, step);
      hide Inv, Work, Apply, Enabled, Run, AllReturned, CanGoOn;
      var rest: seq<Step>;
      rest, k' := Onward(Apply(k, step));
      RunCons(k, step, rest, k');
      more := [step] + rest;
    }
  }

  /**
   From every state of every run the combiner can go on without any new call until every
   call has returned; and then the sum of all operations has been added.
   */
  lemma EverybodyReturns(steps: seq<Step>, k: Core) returns (more: seq<Step>, k': Core)
    requires Run(InitCore(), steps, k)
    ensures Run(k, more, k') && (forall i :: 0 <= i < |more| ==> GoingOn(more[i]))
    ensures k'.status.Keys == k.status.Keys && AllReturned(k') && k'.added == SumOver(k.arg, k.arg.Keys)
  {
    InitInv();
    RunInv(InitCore(), steps, k);
    more, k' := Onward(k);
    hide Run;
    AllAdded(k');
  }

  lemma AllAdded(k: Core)
    requires Inv(k) && AllReturned(k)
    ensures k.added == SumOver(k.arg, k.arg.Keys)
  {
    forall t | t in k.status ensures t in Synced(k) { assert Where(k, t); }
    assert Synced(k) == k.arg.Keys;
  }
}
