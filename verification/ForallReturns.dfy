/**
 A blocking forall returns.  From every state it can reach, as long as nobody else holds
 work of the event, its tasks can be run and its messages delivered until it is back
 with its caller.
 */
module ForallReturns {
  import opened Basics
  import opened ParallelLoop
  import opened ForallShares
  import opened ForallPhase
  import G = GceProtocol
  import GceSafety
  import T = GceTheorems
  import W = GceWake
  import P = GcePhases
  import Causal = GceCausality
  import O = GceOverrun
  import Pr = GceProgress
  import R = GceReturns

  // ---------- Tasks of the loop wait for nothing but their enrolls ----------

  ghost predicate Busy(a: Call, j: Sys) {
    && (forall i :: 0 <= i < |j.jobs| ==>
          R.OnlyEnrolls(j.s, j.jobs[i].t) && (j.jobs[i].forked ==> !Serial(j.jobs[i].iters, a.loop.threshold, a.loop.flag)))
    && (j.pc == Enrolling ==> R.OnlyEnrolls(j.s, a.caller))
  }

  lemma StaysBusy(a: Call, j: Sys, g: G.Step, t: Task)
    requires G.Enabled(j.s, g) && P.Actor(g) != Some(t) && R.OnlyEnrolls(j.s, t)
    ensures R.OnlyEnrolls(G.Apply(j.s, g), t)
  {
    R.StaysInEnroll(j.s, g, t);
  }

  lemma EnrollsBusy(s: G.Sys, t: Task, c: nat, inc: nat, via: nat)
    requires G.Enabled(s, G.EnrollStep(t, c, inc, via))
    ensures R.OnlyEnrolls(G.Apply(s, G.EnrollStep(t, c, inc, via)), t)
  {
    T.EnrollKeeps(s, t, c, inc, via);
    hide G.DoEnroll;
  }

  lemma HandOffBusy(s: G.Sys, t: Task, u: Task, c: nat)
    requires G.Enabled(s, G.HandOff(t, u, c))
    ensures G.Apply(s, G.HandOff(t, u, c)).blocked == s.blocked
  {
  }

  lemma CompleteOnBusy(s: G.Sys, d: nat, k: nat)
    requires G.Shape(s) && d < G.Cores(s)
    ensures G.CompleteOn(s, d, k).blocked == s.blocked
  {
  }

  lemma CompleteBusy(s: G.Sys, t: Task, c: nat, d: nat, k: nat)
    requires G.Enabled(s, G.CompleteStep(t, c, d, k))
    ensures G.Apply(s, G.CompleteStep(t, c, d, k)).blocked == s.blocked
  {
    if c == d { CompleteOnBusy(s.(held := s.held[d := s.held[d][t := s.held[d][t] - k]]), d, k); }
    hide G.CompleteOn;
  }

  /** The jobs after a step are, one by one, jobs from before, the job whose step it is, or a new one that is not blocked. */
  lemma CallerBusy(a: Call, j: Sys, step: Step)
    requires Allowed(a.loop) && HoldsAll(a, j) && Busy(a, j) && Enabled(a, j, step)
    requires step.Start? || step.Enrolled? || step.SendTo? || step.Ask? || step.Back?
    ensures Busy(a, Apply(a, j, step))
  {
    var j' := Apply(a, j, step);
    match step {
      case Start(via) => EnrollsBusy(j.s, a.caller, a.origin, Fanout(a.loop), via);
      case SendTo(u) => HandOffBusy(j.s, a.caller, u, a.origin);
      case Ask =>
        forall i | 0 <= i < |j.jobs| ensures R.OnlyEnrolls(j'.s, j.jobs[i].t) {
          StaysBusy(a, j, G.WaitStep(a.caller, a.origin), j.jobs[i].t);
        }
      case _ =>
    }
    hide Allowed, Fanout, JobOk, Holds, G.Apply, Serial;
  }

  lemma ForkBusy(a: Call, j: Sys, i: nat)
    requires Allowed(a.loop) && HoldsAll(a, j) && Busy(a, j) && Enabled(a, j, Fork(i))
    ensures Busy(a, Apply(a, j, Fork(i)))
  {
    var b, j' := j.jobs[i], Apply(a, j, Fork(i));
    var g := G.EnrollStep(b.t, b.core, 1, b.home);
    EnrollsBusy(j.s, b.t, b.core, 1, b.home);
    OthersDiffer(j.jobs, a.caller, i);
    forall k | 0 <= k < |j.jobs| && k != i ensures R.OnlyEnrolls(j'.s, j.jobs[k].t) {
      StaysBusy(a, j, g, j.jobs[k].t);
    }
    if j.pc == Enrolling { StaysBusy(a, j, g, a.caller); }
    hide Allowed, Fanout, JobOk, Holds, G.Apply, Serial;
  }

  lemma SpawnBusy(a: Call, j: Sys, i: nat, u: Task)
    requires Allowed(a.loop) && Busy(a, j) && Enabled(a, j, Spawn(i, u))
    ensures Busy(a, Apply(a, j, Spawn(i, u)))
  {
    HandOffBusy(j.s, j.jobs[i].t, u, j.jobs[i].core);
    hide Allowed, G.Apply, Serial, Packed;
  }

  lemma LeafBusy(a: Call, j: Sys, i: nat)
    requires Allowed(a.loop) && Busy(a, j) && Enabled(a, j, Leaf(i))
    ensures Busy(a, Apply(a, j, Leaf(i)))
  {
    hide Allowed, Serial, Part;
  }

  lemma FinishBusy(a: Call, j: Sys, i: nat)
    requires Allowed(a.loop) && Busy(a, j) && Enabled(a, j, Finish(i))
    ensures Busy(a, Apply(a, j, Finish(i)))
  {
    var b, j' := j.jobs[i], Apply(a, j, Finish(i));
    CompleteBusy(j.s, b.t, b.core, b.home, 1);
    hide Allowed, G.Apply, Serial;
    assert j'.s.blocked == j.s.blocked;
  }

  lemma OtherBusy(a: Call, j: Sys, g: G.Step)
    requires Allowed(a.loop) && HoldsAll(a, j) && Busy(a, j) && Enabled(a, j, Other(g))
    ensures Busy(a, Apply(a, j, Other(g)))
  {
    var j' := Apply(a, j, Other(g));
    forall i | 0 <= i < |j.jobs| ensures R.OnlyEnrolls(j'.s, j.jobs[i].t) {
      assert IsJob(j, j.jobs[i].t);
      StaysBusy(a, j, g, j.jobs[i].t);
    }
    if j.pc == Enrolling { StaysBusy(a, j, g, a.caller); }
    hide Allowed, G.Apply, Serial;
  }

  lemma StepBusy(a: Call, j: Sys, step: Step)
    requires Allowed(a.loop) && HoldsAll(a, j) && Busy(a, j) && Enabled(a, j, step)
    ensures Busy(a, Apply(a, j, step))
  {
    hide Allowed, HoldsAll, Busy, Apply, Enabled;
    match step
    case Fork(i) => ForkBusy(a, j, i);
    case Spawn(i, u) => SpawnBusy(a, j, i, u);
    case Leaf(i) => LeafBusy(a, j, i);
    case Finish(i) => FinishBusy(a, j, i);
    case Other(g) => OtherBusy(a, j, g);
    case _ => CallerBusy(a, j, step);
  }

  lemma {:induction false} RunBusy(a: Call, j: Sys, steps: seq<Step>, j': Sys)
    requires Allowed(a.loop) && Inv(a, j) && Busy(a, j) && Run(a, j, steps, j')
    ensures Inv(a, j') && Busy(a, j')
    decreases |steps|
  {
    if steps != [] {
      StepInv(a, j, steps[0]);
      StepBusy(a, j, steps[0]);
      hide Allowed, Inv, Busy, Apply, Enabled;
      RunBusy(a, Apply(a, j, steps[0]), steps[1..], j');
    }
  }

  // ---------- Runs of the whole ----------

  lemma RunOne(a: Call, j: Sys, step: Step)
    requires Allowed(a.loop) && Enabled(a, j, step)
    ensures Run(a, j, [step], Apply(a, j, step))
  {
    hide Enabled, Apply;
    assert [step][1..] == [];
    assert Run(a, Apply(a, j, step), [], Apply(a, j, step));
  }

  lemma {:induction false} RunConcat(a: Call, j: Sys, xs: seq<Step>, j1: Sys, ys: seq<Step>, j2: Sys)
    requires Allowed(a.loop) && Run(a, j, xs, j1) && Run(a, j1, ys, j2)
    ensures Run(a, j, xs + ys, j2)
    decreases |xs|
  {
    hide Enabled, Apply;
    if xs == [] {
      assert xs + ys == ys;
    } else {
      RunConcat(a, Apply(a, j, xs[0]), xs[1..], j1, ys, j2);
      assert (xs + ys)[1..] == xs[1..] + ys;
    }
  }

  function Others(gs: seq<G.Step>): seq<Step> {
    if gs == [] then [] else [Other(gs[0])] + Others(gs[1..])
  }

  /** Delivering what is in flight is something that others may do at any time. */
  lemma {:induction false} RunOthers(a: Call, j: Sys, gs: seq<G.Step>, s': G.Sys)
    requires Allowed(a.loop) && G.Run(j.s, gs, s') && Pr.AllDeliver(gs)
    ensures Run(a, j, Others(gs), j.(s := s'))
    decreases |gs|
  {
    hide G.Apply, G.Enabled, Allowed;
    if gs != [] {
      assert P.Actor(gs[0]) == None;
      assert Enabled(a, j, Other(gs[0]));
      var j1 := Apply(a, j, Other(gs[0]));
      assert j1 == j.(s := G.Apply(j.s, gs[0]));
      assert Pr.AllDeliver(gs[1..]);
      RunOthers(a, j1, gs[1..], s');
      assert Others(gs)[1..] == Others(gs[1..]);
    } else {
      assert j.(s := s') == j;
    }
  }

  // ---------- Nobody else holds work ----------

  /** The enrollments on core d that the jobs of task t stand for. */
  function JobsNeed(jobs: seq<Job>, t: Task, d: nat): nat {
    if jobs == [] then 0 else (if jobs[0].t == t then Need(jobs[0], d) else 0) + JobsNeed(jobs[1..], t, d)
  }

  lemma {:induction false} NeedAppend(jobs: seq<Job>, b: Job, t: Task, d: nat)
    ensures JobsNeed(jobs + [b], t, d) == JobsNeed(jobs, t, d) + if b.t == t then Need(b, d) else 0
  {
    if jobs == [] {
      assert jobs + [b] == [b] && [b][1..] == [];
    } else {
      NeedAppend(jobs[1..], b, t, d);
      assert (jobs + [b])[1..] == jobs[1..] + [b];
    }
  }

  lemma {:induction false} NeedUpdate(jobs: seq<Job>, i: nat, b: Job, t: Task, d: nat)
    requires i < |jobs| && b.t == jobs[i].t
    ensures JobsNeed(jobs[i := b], t, d) + (if b.t == t then Need(jobs[i], d) else 0) ==
      JobsNeed(jobs, t, d) + if b.t == t then Need(b, d) else 0
  {
    if i > 0 {
      NeedUpdate(jobs[1..], i - 1, b, t, d);
      assert jobs[i := b][1..] == jobs[1..][i - 1 := b];
    } else {
      assert jobs[i := b][1..] == jobs[1..];
    }
  }

  lemma {:induction false} NeedRemove(jobs: seq<Job>, i: nat, t: Task, d: nat)
    requires i < |jobs|
    ensures JobsNeed(jobs[..i] + jobs[i + 1..], t, d) + (if jobs[i].t == t then Need(jobs[i], d) else 0) == JobsNeed(jobs, t, d)
  {
    if i > 0 {
      NeedRemove(jobs[1..], i - 1, t, d);
      assert (jobs[..i] + jobs[i + 1..])[1..] == jobs[1..][..i - 1] + jobs[1..][i..];
    } else {
      assert jobs[..0] + jobs[1..] == jobs[1..];
    }
  }

  /** The enrollments that the caller holds for shares that it has not sent. */
  function CallerNeed(a: Call, pc: Pc, d: nat): nat
    requires Allowed(a.loop)
  {
    if d != a.origin then 0 else
    match pc
    case Enrolling => Fanout(a.loop)
    case Sending(k) => if k <= Fanout(a.loop) then Fanout(a.loop) - k else 0
    case _ => 0
  }

  ghost function Owed(a: Call, j: Sys, t: Task, d: nat): nat
    requires Allowed(a.loop)
  {
    JobsNeed(j.jobs, t, d) + if t == a.caller then CallerNeed(a, j.pc, d) else 0
  }

  /** Every enrollment of the event is one of this loop's. */
  ghost predicate OnlyLoop(a: Call, j: Sys)
    requires Allowed(a.loop)
  {
    G.Shape(j.s) && forall d, t :: 0 <= d < G.Cores(j.s) ==> j.s.held[d][t] == Owed(a, j, t, d)
  }

  lemma CallerOnly(a: Call, j: Sys, step: Step)
    requires Allowed(a.loop) && HoldsAll(a, j) && OnlyLoop(a, j) && Enabled(a, j, step) && (step.Enrolled? || step.Ask?)
    ensures OnlyLoop(a, Apply(a, j, step))
  {
    var j' := Apply(a, j, step);
    if step.Ask? { T.StepShape(j.s, G.WaitStep(a.caller, a.origin)); }
    assert j'.s.held == j.s.held;
    hide Allowed, Fanout, G.Apply;
  }

  lemma SendOnly(a: Call, j: Sys, u: Task)
    requires Allowed(a.loop) && HoldsAll(a, j) && OnlyLoop(a, j) && Enabled(a, j, SendTo(u))
    ensures OnlyLoop(a, Apply(a, j, SendTo(u)))
  {
    var k, j' := j.pc.k, Apply(a, j, SendTo(u));
    T.StepShape(j.s, G.HandOff(a.caller, u, a.origin));
    HandedOver(j.s, a.caller, u, a.origin);
    forall d, t | 0 <= d < G.Cores(j.s) ensures j'.s.held[d][t] == Owed(a, j', t, d) {
      NeedAppend(j.jobs, SentJob(a, k, u), t, d);
      HandedHeld(j.s, a.caller, u, a.origin, d, t);
    }
    hide Allowed, Fanout, G.Apply;
  }

  lemma HandedHeld(s: G.Sys, t: Task, u: Task, c: nat, d: nat, w: Task)
    requires G.Enabled(s, G.HandOff(t, u, c)) && t != u && d < G.Cores(s)
    ensures G.Apply(s, G.HandOff(t, u, c)).held[d][w] ==
      s.held[d][w] - (if d == c && w == t then 1 else 0) + (if d == c && w == u then 1 else 0)
  {
  }

  lemma ForkOnly(a: Call, j: Sys, i: nat)
    requires Allowed(a.loop) && HoldsAll(a, j) && OnlyLoop(a, j) && Enabled(a, j, Fork(i))
    ensures OnlyLoop(a, Apply(a, j, Fork(i)))
  {
    var b, j' := j.jobs[i], Apply(a, j, Fork(i));
    T.EnrollKeeps(j.s, b.t, b.core, 1, b.home);
    hide G.DoEnroll, Allowed, Fanout, Holds, JobOk;
    forall d, t | 0 <= d < G.Cores(j.s) ensures j'.s.held[d][t] == Owed(a, j', t, d) {
      NeedUpdate(j.jobs, i, b.(forked := true), t, d);
    }
  }

  lemma SpawnOnly(a: Call, j: Sys, i: nat, u: Task)
    requires Allowed(a.loop) && HoldsAll(a, j) && OnlyLoop(a, j) && Enabled(a, j, Spawn(i, u))
    ensures OnlyLoop(a, Apply(a, j, Spawn(i, u)))
  {
    var b, j' := j.jobs[i], Apply(a, j, Spawn(i, u));
    var left, right := LeftJob(b), RightJob(b, u);
    T.StepShape(j.s, G.HandOff(b.t, u, b.core));
    assert b.t != u by { assert IsJob(j, b.t); }
    hide Allowed, Fanout, Holds, JobOk, Packed;
    forall d, t | 0 <= d < G.Cores(j.s) ensures j'.s.held[d][t] == Owed(a, j', t, d) {
      NeedUpdate(j.jobs, i, left, t, d);
      NeedAppend(j.jobs[i := left], right, t, d);
      HandedHeld(j.s, b.t, u, b.core, d, t);
    }
    hide G.Apply;
  }

  lemma FinishOnly(a: Call, j: Sys, i: nat)
    requires Allowed(a.loop) && HoldsAll(a, j) && OnlyLoop(a, j) && Enabled(a, j, Finish(i))
    ensures OnlyLoop(a, Apply(a, j, Finish(i)))
  {
    var b, j' := j.jobs[i], Apply(a, j, Finish(i));
    T.StepShape(j.s, G.CompleteStep(b.t, b.core, b.home, 1));
    P.CompleteHeld(j.s, b.t, b.core, b.home, 1);
    assert j'.s == G.DoComplete(j.s, b.t, b.core, b.home, 1);
    hide G.DoComplete, Allowed, Fanout, Holds, JobOk;
    forall d, t | 0 <= d < G.Cores(j.s) ensures j'.s.held[d][t] == Owed(a, j', t, d) {
      NeedRemove(j.jobs, i, t, d);
    }
  }

  lemma LeafOnly(a: Call, j: Sys, i: nat)
    requires Allowed(a.loop) && OnlyLoop(a, j) && Enabled(a, j, Leaf(i))
    ensures OnlyLoop(a, Apply(a, j, Leaf(i)))
  {
    var b, j' := j.jobs[i], Apply(a, j, Leaf(i));
    hide Allowed, Fanout, Part, Serial;
    assert j'.s == j.s && j'.pc == j.pc;
    forall d, t | 0 <= d < G.Cores(j.s) ensures j'.s.held[d][t] == Owed(a, j', t, d) {
      assert j.s.held[d][t] == Owed(a, j, t, d);
      NeedUpdate(j.jobs, i, b.(start := b.start + b.iters, iters := 0), t, d);
      hide JobsNeed, CallerNeed;
    }
    hide Owed, Apply;
  }

  lemma OwnOnly(a: Call, j: Sys, step: Step)
    requires Allowed(a.loop) && HoldsAll(a, j) && OnlyLoop(a, j) && Enabled(a, j, step) && Own(step)
    ensures OnlyLoop(a, Apply(a, j, step))
  {
    hide Allowed, HoldsAll, OnlyLoop, Apply, Enabled;
    match step
    case SendTo(u) => SendOnly(a, j, u);
    case Fork(i) => ForkOnly(a, j, i);
    case Spawn(i, u) => SpawnOnly(a, j, i, u);
    case Leaf(i) => LeafOnly(a, j, i);
    case Finish(i) => FinishOnly(a, j, i);
    case _ => CallerOnly(a, j, step);
  }

  /** The steps between the start of a forall and its return. */
  predicate Own(step: Step) {
    !step.Start? && !step.Back? && !step.Other?
  }

  // ---------- How much is left to do ----------

  /** The steps a job is good for, with those of the jobs it spawns. */
  function Weight(b: Job): nat {
    if b.iters == 0 then 1 else 4 * b.iters - 2 - if b.forked then 1 else 0
  }

  function Weights(jobs: seq<Job>): nat {
    if jobs == [] then 0 else Weight(jobs[0]) + Weights(jobs[1..])
  }

  lemma {:induction false} WeightsAppend(jobs: seq<Job>, b: Job)
    ensures Weights(jobs + [b]) == Weights(jobs) + Weight(b)
  {
    if jobs == [] {
      assert jobs + [b] == [b] && [b][1..] == [];
    } else {
      WeightsAppend(jobs[1..], b);
      assert (jobs + [b])[1..] == jobs[1..] + [b];
    }
  }

  function PcWork(a: Call, pc: Pc): nat
    requires Allowed(a.loop)
  {
    match pc
    case Enrolling => Fanout(a.loop) + 2
    case Sending(k) => if k <= Fanout(a.loop) then Fanout(a.loop) - k + 1 else 0
    case _ => 0
  }

  /** Does a step leave less to do? */
  ghost predicate Less(a: Call, j: Sys, j': Sys)
    requires Allowed(a.loop)
  {
    PcWork(a, j'.pc) < PcWork(a, j.pc) || (j'.pc == j.pc && Weights(j'.jobs) < Weights(j.jobs))
  }

  lemma MaxId(ts: set<Task>) returns (n: nat)
    ensures forall t :: t in ts ==> t.id < n
    decreases ts
  {
    if ts == {} {
      n := 0;
    } else {
      var t :| t in ts;
      n := MaxId(ts - {t});
      n := if n <= t.id then t.id + 1 else n;
    }
  }

  /** There is always a task that the loop can spawn. */
  lemma FreshTask(a: Call, j: Sys) returns (u: Task)
    ensures Fresh(a, j, u)
  {
    var ts := j.s.blocked.Keys + {a.caller} + set i | 0 <= i < |j.jobs| :: j.jobs[i].t;
    var n := MaxId(ts);
    u := Task(n);
    forall i | 0 <= i < |j.jobs| ensures j.jobs[i].t != u {
      assert j.jobs[i].t in ts;
    }
    assert u !in ts;
  }

  /** The next step of the caller, which is not blocked. */
  lemma CallerStep(a: Call, j: Sys) returns (step: Step)
    requires Allowed(a.loop) && HoldsAll(a, j) && (j.pc == Enrolling || j.pc.Sending?) && a.caller !in j.s.blocked
    ensures Own(step) && Enabled(a, j, step) && Less(a, j, Apply(a, j, step))
  {
    if j.pc == Enrolling {
      step := Enrolled;
    } else if j.pc.k < Fanout(a.loop) {
      var u := FreshTask(a, j);
      step := SendTo(u);
      CallerAllowed(a, j, step);
    } else {
      step := Ask;
      CallerAllowed(a, j, step);
    }
    hide Allowed, Fanout, G.Apply, G.Enabled, Fresh, JobOk, Holds;
  }

  lemma SmallIsSerial(p: Loop, iters: nat)
    requires Allowed(p) && !Serial(iters, p.threshold, p.flag)
    ensures iters >= 2
  {
  }

  lemma SpawnLess(a: Call, j: Sys, u: Task)
    requires Allowed(a.loop) && j.jobs != [] && JobOk(a, j.jobs[0]) && j.jobs[0].iters >= 2 && j.jobs[0].forked
    ensures Weights(j.jobs[0 := LeftJob(j.jobs[0])] + [RightJob(j.jobs[0], u)]) < Weights(j.jobs)
  {
    var b := j.jobs[0];
    hide Packed, Part, Allowed;
    Halves(a, b);
    WeightsAppend(j.jobs[0 := LeftJob(b)], RightJob(b, u));
    assert j.jobs[0 := LeftJob(b)][1..] == j.jobs[1..];
  }

  lemma FirstLess(jobs: seq<Job>, b: Job)
    requires jobs != [] && Weight(b) < Weight(jobs[0])
    ensures Weights(jobs[0 := b]) < Weights(jobs) && Weights(jobs[..0] + jobs[1..]) < Weights(jobs)
  {
    assert jobs[0 := b][1..] == jobs[1..];
    assert jobs[..0] + jobs[1..] == jobs[1..];
  }

  /** The next step of the first job, which is not blocked. */
  lemma JobStep(a: Call, j: Sys) returns (step: Step)
    requires Allowed(a.loop) && HoldsAll(a, j) && Busy(a, j) && j.jobs != [] && j.jobs[0].t !in j.s.blocked
    ensures Own(step) && Enabled(a, j, step) && Less(a, j, Apply(a, j, step))
  {
    var b := j.jobs[0];
    assert JobOk(a, b);
    if b.forked {
      var u := FreshTask(a, j);
      step := Spawn(0, u);
      JobAllowed(a, j, step);
      SmallIsSerial(a.loop, b.iters);
      SpawnLess(a, j, u);
    } else if b.iters == 0 {
      step := Finish(0);
      JobAllowed(a, j, step);
      FinishLess(j.jobs);
    } else if Serial(b.iters, a.loop.threshold, a.loop.flag) {
      step := Leaf(0);
      FirstLess(j.jobs, b.(start := b.start + b.iters, iters := 0));
    } else {
      step := Fork(0);
      JobAllowed(a, j, step);
      FirstLess(j.jobs, b.(forked := true));
    }
    hide Allowed, Fanout, G.Apply, G.Enabled, Fresh, JobOk, Holds, Weights, LeftJob, RightJob, Serial;
  }

  lemma FinishLess(jobs: seq<Job>)
    requires jobs != []
    ensures Weights(jobs[..0] + jobs[1..]) < Weights(jobs)
  {
    assert jobs[..0] + jobs[1..] == jobs[1..];
  }

  // ---------- Getting there ----------

  /** The loop is under way, and nobody else holds work. */
  ghost predicate Underway(a: Call, j: Sys)
    requires Allowed(a.loop)
  {
    Inv(a, j) && Busy(a, j) && OnlyLoop(a, j) && (j.pc == Enrolling || j.pc.Sending? || j.pc == Asked)
  }

  lemma SameHeld(a: Call, j: Sys, s': G.Sys)
    requires Allowed(a.loop) && OnlyLoop(a, j) && G.Shape(s') && G.Cores(s') == G.Cores(j.s) && s'.held == j.s.held
    ensures OnlyLoop(a, j.(s := s'))
  {
    hide Allowed, Fanout;
    forall d, t | 0 <= d < G.Cores(s') ensures s'.held[d][t] == Owed(a, j.(s := s'), t, d) {
      assert j.s.held[d][t] == Owed(a, j, t, d);
    }
  }

  /** A task of the loop that is in enroll can be brought back. */
  lemma Unblocked(a: Call, j: Sys, t: Task) returns (xs: seq<Step>, j1: Sys)
    requires Allowed(a.loop) && Underway(a, j) && R.OnlyEnrolls(j.s, t)
    ensures Run(a, j, xs, j1) && j1 == j.(s := j1.s) && t !in j1.s.blocked && Underway(a, j1) && j1.s.detected == j.s.detected
  {
    if t !in j.s.blocked {
      xs, j1 := [], j;
    } else {
      ProtocolInv(a, j.s);
      hide W.WakingInv, GceSafety.Inv, GceSafety.Lists;
      var gs, s' := R.EnrollReturns(j.s, t);
      hide G.Run;
      SameHeld(a, j, s');
      RunOthers(a, j, gs, s');
      xs, j1 := Others(gs), j.(s := s');
      hide Allowed, Inv, Busy, OnlyLoop, Run;
      RunBusy(a, j, xs, j1);
    }
  }

  lemma OwnProtocol(a: Call, j: Sys, step: Step)
    requires Allowed(a.loop) && Ready(a, j, step) && Own(step) && Protocol(a, j, step).Some?
    ensures !Protocol(a, j, step).value.DeliverEnter?
  {
    hide Allowed, Fanout;
  }

  lemma OwnFrame(a: Call, j: Sys, step: Step)
    requires Allowed(a.loop) && Enabled(a, j, step) && Own(step)
    ensures var j' := Apply(a, j, step);
      && j'.phase == j.phase && (j'.pc == j.pc || j'.pc.Sending? || j'.pc == Asked)
      && j'.s == match Protocol(a, j, step) case Some(g) => G.Apply(j.s, g) case None => j.s
  {
    hide Allowed, Fanout, G.Apply, G.Enabled;
  }

  lemma OwnDetects(a: Call, j: Sys, step: Step)
    requires Allowed(a.loop) && Inv(a, j) && Enabled(a, j, step) && Own(step)
    ensures var j' := Apply(a, j, step);
      j'.s.detected == j.s.detected && j'.phase == j.phase && (j'.pc == j.pc || j'.pc.Sending? || j'.pc == Asked)
  {
    OwnFrame(a, j, step);
    ReachableFacts(a, j);
    if Protocol(a, j, step).Some? {
      OwnProtocol(a, j, step);
      P.StepDetects(j.s, Protocol(a, j, step).value);
    }
    hide Inv, Allowed, G.Apply, G.Enabled, W.WakingInv, Apply, Protocol, Ready;
  }

  /** A step of the loop keeps it under way. */
  lemma OwnStep(a: Call, j: Sys, step: Step)
    requires Allowed(a.loop) && Underway(a, j) && Own(step) && Enabled(a, j, step)
    ensures Underway(a, Apply(a, j, step))
  {
    StepInv(a, j, step);
    InvHolds(a, j);
    StepBusy(a, j, step);
    OwnOnly(a, j, step);
    OwnDetects(a, j, step);
    hide Allowed, Inv, Busy, OnlyLoop, Apply, Enabled;
  }

  lemma InvHolds(a: Call, j: Sys)
    requires Allowed(a.loop) && Inv(a, j)
    ensures HoldsAll(a, j)
  {
    hide HoldsAll, Conserved, PhaseOk;
  }

  /** The caller's call to wait, once it has been made, will come back. */
  ghost predicate Awaited(a: Call, j: Sys) {
    j.pc == Asked && j.phase <= j.s.detected ==> Pr.WillReturn(j.s, a.caller)
  }

  lemma AskAwaited(a: Call, j: Sys)
    requires Allowed(a.loop) && Inv(a, j) && Enabled(a, j, Ask)
    ensures Awaited(a, Apply(a, j, Ask))
  {
    FanoutPositive(a.loop);
    Pr.AskedWillReturn(a.loop.m.cores, j.s, a.caller, a.origin);
    hide Inv, Pr.WillReturn, G.Reachable;
  }

  /** Before the phase is over, it still is after a step of the loop; and afterwards only the call to wait is left. */
  lemma OwnAwaited(a: Call, j: Sys, step: Step)
    requires Allowed(a.loop) && Underway(a, j) && Own(step) && Enabled(a, j, step) && !(j.pc == Asked && j.jobs == [])
    ensures Awaited(a, Apply(a, j, step))
  {
    if step.Ask? {
      AskAwaited(a, j);
    } else {
      OwnDetects(a, j, step);
      if j.pc == Asked { PendingOpen(a, j); }
      if Apply(a, j, step).pc == Asked { AskedOnlyByAsk(a, j, step); }
      hide Inv, Allowed, Pr.WillReturn, Apply, Busy, OnlyLoop, Enabled;
    }
  }

  lemma AskedOnlyByAsk(a: Call, j: Sys, step: Step)
    requires Allowed(a.loop) && Enabled(a, j, step) && !step.Ask? && Apply(a, j, step).pc == Asked
    ensures j.pc == Asked
  {
    hide Allowed, Fanout, G.Apply, G.Enabled;
  }

  lemma PendingOpen(a: Call, j: Sys)
    requires Allowed(a.loop) && Inv(a, j) && j.pc == Asked && j.jobs != []
    ensures j.phase == j.s.detected + 1
  {
    hide Allowed, HoldsAll, Conserved, G.Reachable, P.UntilDetected, P.WaitsFor;
  }

  lemma AtTheEnd(a: Call, j: Sys)
    requires Allowed(a.loop) && Inv(a, j) && j.pc == Asked && Awaited(a, j)
    ensures Pr.WillReturn(j.s, a.caller)
  {
    FanoutPositive(a.loop);
    AskedWaits(a, j);
    if j.phase == j.s.detected + 1 {
      assert j.s.stage == G.Active;
      R.OpenPhaseWillReturn(a.loop.m.cores, j.s, a.caller);
    }
    hide HoldsAll, Conserved, Allowed, G.Reachable, Pr.WillReturn;
  }

  lemma TakeStep(a: Call, j: Sys, xs: seq<Step>, j1: Sys, step: Step) returns (ys: seq<Step>)
    requires Allowed(a.loop) && Run(a, j, xs, j1) && Underway(a, j1) && Own(step) && Enabled(a, j1, step)
    requires !(j1.pc == Asked && j1.jobs == [])
    ensures Run(a, j, ys, Apply(a, j1, step)) && Underway(a, Apply(a, j1, step)) && Awaited(a, Apply(a, j1, step))
  {
    OwnStep(a, j1, step);
    OwnAwaited(a, j1, step);
    hide Allowed, Underway, Enabled, Apply, Run, Awaited;
    RunOne(a, j1, step);
    RunConcat(a, j, xs, j1, [step], Apply(a, j1, step));
    ys := xs + [step];
  }

  lemma NextMove(a: Call, j: Sys) returns (xs: seq<Step>, j': Sys)
    requires Allowed(a.loop) && Underway(a, j) && !(j.pc == Asked && j.jobs == [])
    ensures Run(a, j, xs, j') && Underway(a, j') && Less(a, j, j') && Awaited(a, j')
  {
    var t := if j.pc == Asked then j.jobs[0].t else a.caller;
    MoverEnrolls(a, j);
    hide Allowed, Inv, Busy, OnlyLoop, Enabled, Apply, Run, Awaited, HoldsAll;
    var j1: Sys;
    xs, j1 := Unblocked(a, j, t);
    InvHolds(a, j1);
    var step: Step;
    if j.pc == Asked {
      step := JobStep(a, j1);
    } else {
      step := CallerStep(a, j1);
    }
    j' := Apply(a, j1, step);
    xs := TakeStep(a, j, xs, j1, step);
  }

  lemma MoverEnrolls(a: Call, j: Sys)
    requires Allowed(a.loop) && Underway(a, j) && !(j.pc == Asked && j.jobs == [])
    ensures R.OnlyEnrolls(j.s, if j.pc == Asked then j.jobs[0].t else a.caller)
  {
    InvHolds(a, j);
    hide Allowed, Inv, OnlyLoop, Fanout, JobOk, Holds;
  }

  /** The loop is run to the point where only its caller's wait is left. */
  lemma {:induction false} Onward(a: Call, j: Sys) returns (more: seq<Step>, j': Sys)
    requires Allowed(a.loop) && Underway(a, j) && Awaited(a, j)
    ensures Run(a, j, more, j') && Underway(a, j') && j'.pc == Asked && j'.jobs == [] && Awaited(a, j')
    decreases PcWork(a, j.pc), Weights(j.jobs)
  {
    if j.pc == Asked && j.jobs == [] {
      more, j' := [], j;
    } else {
      var xs, j1 := NextMove(a, j);
      hide Allowed, Underway, Run, Awaited, PcWork, Weights;
      more, j' := Onward(a, j1);
      RunConcat(a, j, xs, j1, more, j');
      more := xs + more;
    }
  }

  lemma NothingHeld(a: Call, j: Sys)
    requires Allowed(a.loop) && OnlyLoop(a, j) && j.pc == Asked && j.jobs == []
    ensures Pr.Unheld(j.s)
  {
    hide Allowed;
    forall d | 0 <= d < G.Cores(j.s) ensures j.s.held[d] == multiset{} {
      forall t ensures j.s.held[d][t] == 0 {
        assert j.s.held[d][t] == Owed(a, j, t, d);
      }
    }
  }

  lemma BackStep(a: Call, j: Sys)
    requires Allowed(a.loop) && j.pc == Asked && a.caller !in j.s.blocked
    ensures Enabled(a, j, ForallPhase.Back) && Apply(a, j, ForallPhase.Back).pc == Returned
  {
    hide Allowed;
  }

  /** Then delivering what is in flight brings the caller back. */
  lemma ComesBack(a: Call, j: Sys) returns (more: seq<Step>, j': Sys)
    requires Allowed(a.loop) && Underway(a, j) && j.pc == Asked && j.jobs == [] && Awaited(a, j)
    ensures Run(a, j, more, j') && j'.pc == Returned
  {
    NothingHeld(a, j);
    AtTheEnd(a, j);
    ReachableFacts(a, j);
    hide Allowed, Inv, Busy, OnlyLoop, Pr.WillReturn, W.WakingInv, Pr.Unheld, O.Placed, Run, Enabled, Apply;
    Pr.WillReturnReturns(j.s, a.caller);
    var gs, s' :| G.Run(j.s, gs, s') && Pr.AllDeliver(gs) && a.caller !in s'.blocked;
    hide G.Run;
    RunOthers(a, j, gs, s');
    var j1 := j.(s := s');
    BackStep(a, j1);
    j' := Apply(a, j1, ForallPhase.Back);
    RunOne(a, j1, ForallPhase.Back);
    RunConcat(a, j, Others(gs), j1, [ForallPhase.Back], j');
    more := Others(gs) + [ForallPhase.Back];
  }

  lemma ReachableFacts(a: Call, j: Sys)
    requires Allowed(a.loop) && Inv(a, j)
    ensures W.WakingInv(j.s) && O.Placed(j.s)
  {
    ProtocolInv(a, j.s);
    FanoutPositive(a.loop);
    Causal.ReachableAll(a.loop.m.cores, j.s);
    hide W.WakingInv, GceSafety.Inv, GceSafety.Lists;
  }

  /**
   A blocking forall returns.  From every state of every run in which nobody else holds
   work of the event, some run brings it back to its caller; if its phase is over
   already, it does so provided that the caller's wait is one of those that come back.
   */
  lemma ForallCanReturn(a: Call, j: Sys, steps: seq<Step>, j1: Sys) returns (more: seq<Step>, j2: Sys)
    requires Init(a, j) && Run(a, j, steps, j1) && j1.pc != Before && j1.pc != Returned && OnlyLoop(a, j1)
    requires j1.pc == Asked && j1.phase <= j1.s.detected ==> Pr.WillReturn(j1.s, a.caller)
    ensures Run(a, j1, more, j2) && j2.pc == Returned
  {
    InitInv(a, j);
    RunBusy(a, j, steps, j1);
    hide Run, Allowed, Inv, Busy, OnlyLoop, Init;
    var j3: Sys;
    more, j3 := Onward(a, j1);
    var rest: seq<Step>;
    rest, j2 := ComesBack(a, j3);
    RunConcat(a, j1, more, j3, rest, j2);
    more := more + rest;
  }

  lemma StartFrame(a: Call, j: Sys)
    requires Allowed(a.loop) && Enabled(a, j, Start(0))
    ensures var j' := Apply(a, j, Start(0));
      j'.pc == Enrolling && j'.jobs == j.jobs && j'.s == G.DoEnroll(j.s, a.caller, a.origin, Fanout(a.loop), 0)
  {
    hide Allowed, Fanout, G.DoEnroll;
  }

  lemma FirstOnly(a: Call, j: Sys, s: G.Sys)
    requires Allowed(a.loop) && j.pc == Enrolling && j.jobs == [] && G.Shape(s) && G.Shape(j.s) && G.Cores(j.s) == G.Cores(s)
    requires a.origin < G.Cores(s) && forall d :: 0 <= d < G.Cores(s) ==> s.held[d] == multiset{}
    requires j.s.held == s.held[a.origin := s.held[a.origin][a.caller := s.held[a.origin][a.caller] + Fanout(a.loop)]]
    ensures OnlyLoop(a, j)
  {
    hide Allowed, Fanout;
  }

  lemma StartFacts(a: Call, j: Sys)
    requires Allowed(a.loop) && Inv(a, j) && j.s.stage == G.Idle && j.pc == Before
    ensures j.jobs == [] && G.Shape(j.s) && a.origin < G.Cores(j.s)
    ensures forall d :: 0 <= d < G.Cores(j.s) ==> j.s.held[d] == multiset{}
  {
    ReachableFacts(a, j);
    InvHolds(a, j);
    IdleHolds(j.s);
    hide Allowed, Inv, W.WakingInv, JobOk, Holds;
  }

  lemma StartHeld(a: Call, j: Sys)
    requires Allowed(a.loop) && Enabled(a, j, Start(0)) && a.origin < G.Cores(j.s)
    ensures var s' := Apply(a, j, Start(0)).s;
      && G.Shape(s') && G.Cores(s') == G.Cores(j.s)
      && s'.held == j.s.held[a.origin := j.s.held[a.origin][a.caller := j.s.held[a.origin][a.caller] + Fanout(a.loop)]]
  {
    StartFrame(a, j);
    T.EnrollKeeps(j.s, a.caller, a.origin, Fanout(a.loop), 0);
    hide Allowed, Fanout, G.DoEnroll, Apply;
  }

  lemma StartOnly(a: Call, j: Sys)
    requires Allowed(a.loop) && Inv(a, j) && Enabled(a, j, Start(0)) && j.s.stage == G.Idle && j.pc == Before
    ensures OnlyLoop(a, Apply(a, j, Start(0)))
  {
    hide Allowed, Inv, OnlyLoop, Apply, Enabled, Fanout, G.DoEnroll;
    StartFacts(a, j);
    StartFrame(a, j);
    StartHeld(a, j);
    FirstOnly(a, Apply(a, j, Start(0)), j.s);
  }

  lemma IdleHolds(s: G.Sys)
    requires GceSafety.Inv(s) && s.stage == G.Idle
    ensures forall d :: 0 <= d < G.Cores(s) ==> s.held[d] == multiset{}
  {
  }

  /**
   So a forall that is called between phases, by any task on any core, can run from its
   call to its return; and when it returns every index has been visited.
   */
  lemma ForallRuns(a: Call, j: Sys, v: Visit) returns (steps: seq<Step>, j': Sys)
    requires Init(a, j) && j.s.stage == G.Idle && a.caller !in j.s.blocked
    ensures Run(a, j, steps, j') && j'.pc == Returned
    ensures j'.visits[v] == if Expected(a.loop.m, a.loop.base, a.loop.nelems, a.loop.size, v) then 1 else 0
  {
    InitInv(a, j);
    assert Enabled(a, j, Start(0));
    StartOnly(a, j);
    var j1 := Apply(a, j, Start(0));
    assert j1.pc == Enrolling;
    hide Allowed, Inv, OnlyLoop, Enabled, Apply, Run, Init, Expected;
    RunOne(a, j, Start(0));
    steps, j' := ForallCanReturn(a, j, [Start(0)], j1);
    RunConcat(a, j, [Start(0)], j1, steps, j');
    steps := [Start(0)] + steps;
    ForallReturnsDone(a, j, steps, j', v);
  }
}
