/**
 A blocking localized forall and the GlobalCompletionEvent it waits on.  The task that
 calls it enrolls one completion per core with elements, sends each core its share, and
 waits; on every core tasks split their ranges, enrolling for each task they spawn, visit
 their leaves and complete.  Tasks of this loop and of others run in any interleaving.
 */
module ForallPhase {
  import opened Basics
  import opened ParallelLoop
  import opened ForallShares
  import C = GceCore
  import G = GceProtocol
  import GceRuns
  import GceSafety
  import T = GceTheorems
  import W = GceWake
  import P = GcePhases
  import Causal = GceCausality

  /** The loop, the core and the task that call forall. */
  datatype Call = Call(loop: Loop, origin: nat, caller: Task)

  /**
   What a task of the loop has left to do on its core: iters elements from the start-th
   local one on, and then a completion on core `home`.  `forked`: it has enrolled for a
   task that it is about to spawn.
   */
  datatype Job = Job(t: Task, core: nat, home: nat, start: nat, iters: nat, forked: bool)

  /** How far the caller is; Sending(k) has sent k cores their shares. */
  datatype Pc = Before | Enrolling | Sending(k: nat) | Asked | Returned

  datatype Sys = Sys(s: G.Sys, pc: Pc, jobs: seq<Job>, visits: multiset<Visit>, phase: nat)

  datatype Step =
    | Start(via: nat)
    | Enrolled
    | SendTo(u: Task)
    | Ask
    | Back
    | Fork(i: nat)
    | Spawn(i: nat, u: Task)
    | Leaf(i: nat)
    | Finish(i: nat)
    | Other(step: G.Step)

  predicate IsJob(j: Sys, t: Task) {
    exists i :: 0 <= i < |j.jobs| && j.jobs[i].t == t
  }

  predicate Fresh(a: Call, j: Sys, u: Task) {
    !IsJob(j, u) && u != a.caller && u !in j.s.blocked
  }

  /** Does a step of the protocol have nothing to do with this loop's tasks? */
  predicate Foreign(a: Call, j: Sys, step: G.Step) {
    match P.Actor(step)
    case Some(t) => !IsJob(j, t) && (t == a.caller ==> j.pc == Before || j.pc == Returned)
    case None => true
  }

  /** Is a step next in the program of its task? */
  predicate Ready(a: Call, j: Sys, step: Step)
    requires Allowed(a.loop)
  {
    match step
    case Start(via) => j.pc == Before && !IsJob(j, a.caller)
    case Enrolled => j.pc == Enrolling && a.caller !in j.s.blocked
    case SendTo(u) => j.pc.Sending? && j.pc.k < Fanout(a.loop) && Fresh(a, j, u)
    case Ask => j.pc == Sending(Fanout(a.loop))
    case Back => j.pc == Asked && a.caller !in j.s.blocked
    case Fork(i) =>
      && i < |j.jobs| && j.jobs[i].t !in j.s.blocked && !j.jobs[i].forked && j.jobs[i].iters > 0
      && !Serial(j.jobs[i].iters, a.loop.threshold, a.loop.flag)
    case Spawn(i, u) => i < |j.jobs| && j.jobs[i].t !in j.s.blocked && j.jobs[i].forked && Fresh(a, j, u)
    case Leaf(i) =>
      && i < |j.jobs| && j.jobs[i].t !in j.s.blocked && !j.jobs[i].forked && j.jobs[i].iters > 0
      && Serial(j.jobs[i].iters, a.loop.threshold, a.loop.flag)
    case Finish(i) => i < |j.jobs| && j.jobs[i].t !in j.s.blocked && !j.jobs[i].forked && j.jobs[i].iters == 0
    case Other(step) => Foreign(a, j, step)
  }

  /** The step of the protocol that a step of the loop takes, if any. */
  function Protocol(a: Call, j: Sys, step: Step): Option<G.Step>
    requires Allowed(a.loop) && Ready(a, j, step)
  {
    match step
    case Start(via) => Some(G.EnrollStep(a.caller, a.origin, Fanout(a.loop), via))
    case SendTo(u) => Some(G.HandOff(a.caller, u, a.origin))
    case Ask => Some(G.WaitStep(a.caller, a.origin))
    case Fork(i) => Some(G.EnrollStep(j.jobs[i].t, j.jobs[i].core, 1, j.jobs[i].home))
    case Spawn(i, u) => Some(G.HandOff(j.jobs[i].t, u, j.jobs[i].core))
    case Finish(i) => Some(G.CompleteStep(j.jobs[i].t, j.jobs[i].core, j.jobs[i].home, 1))
    case Other(step) => Some(step)
    case _ => None
  }

  predicate Enabled(a: Call, j: Sys, step: Step)
    requires Allowed(a.loop)
  {
    Ready(a, j, step) && (Protocol(a, j, step).Some? ==> G.Enabled(j.s, Protocol(a, j, step).value))
  }

  /** What a signed 48-bit field keeps of a number, as a number. */
  function Packed(x: nat): nat {
    var r := Pack48(x);
    if r < 0 then 0 else r
  }

  function NextPc(a: Call, j: Sys, step: Step): Pc {
    match step
    case Start(_) => Enrolling
    case Enrolled => Sending(0)
    case SendTo(_) => if j.pc.Sending? then Sending(j.pc.k + 1) else j.pc
    case Ask => Asked
    case Back => Returned
    case _ => j.pc
  }

  /** The task that runs the share of the k-th core. */
  function SentJob(a: Call, k: nat, u: Task): Job
    requires Allowed(a.loop) && k < Fanout(a.loop)
  {
    Job(u, CoreAt(a.loop, k), a.origin, 0, ShareSize(a.loop, k), false)
  }

  /** The left half stays. */
  function LeftJob(b: Job): Job {
    b.(iters := (b.iters + 1) / 2, forked := false)
  }

  /** The right half is packed and spawned; it completes where it was spawned. */
  function RightJob(b: Job, u: Task): Job {
    Job(u, b.core, b.core, Packed(b.start + (b.iters + 1) / 2), Packed(b.iters / 2), false)
  }

  function NextJobs(a: Call, j: Sys, step: Step): seq<Job>
    requires Allowed(a.loop) && Ready(a, j, step)
  {
    match step
    case SendTo(u) => j.jobs + [SentJob(a, j.pc.k, u)]
    case Fork(i) => j.jobs[i := j.jobs[i].(forked := true)]
    case Spawn(i, u) => j.jobs[i := LeftJob(j.jobs[i])] + [RightJob(j.jobs[i], u)]
    case Leaf(i) => j.jobs[i := j.jobs[i].(start := j.jobs[i].start + j.jobs[i].iters, iters := 0)]
    case Finish(i) => j.jobs[..i] + j.jobs[i + 1..]
    case _ => j.jobs
  }

  function NextVisits(a: Call, j: Sys, step: Step): multiset<Visit>
    requires Allowed(a.loop) && Ready(a, j, step)
  {
    match step
    case Leaf(i) => j.visits + Part(a.loop, j.jobs[i].core, j.jobs[i].start, j.jobs[i].iters)
    case _ => j.visits
  }

  function NextSys(a: Call, j: Sys, step: Step): G.Sys
    requires Allowed(a.loop) && Enabled(a, j, step)
  {
    match Protocol(a, j, step)
    case Some(g) => G.Apply(j.s, g)
    case None => j.s
  }

  function Apply(a: Call, j: Sys, step: Step): Sys
    requires Allowed(a.loop) && Enabled(a, j, step)
  {
    var s' := NextSys(a, j, step);
    Sys(s', NextPc(a, j, step), NextJobs(a, j, step), NextVisits(a, j, step),
        if step.Start? then G.Opened(s') else j.phase)
  }

  ghost predicate Run(a: Call, j: Sys, steps: seq<Step>, j': Sys)
    requires Allowed(a.loop)
    decreases |steps|
  {
    if steps == [] then j' == j
    else Enabled(a, j, steps[0]) && Run(a, Apply(a, j, steps[0]), steps[1..], j')
  }

  /** The protocol may be in any reachable state when the loop comes along. */
  ghost predicate Init(a: Call, j: Sys) {
    && Allowed(a.loop) && G.Reachable(a.loop.m.cores, j.s) && a.origin < a.loop.m.cores
    && j == Sys(j.s, Before, [], multiset{}, 0)
  }

  // ---------- The visits still owed ----------

  function Rest(p: Loop, jobs: seq<Job>): multiset<Visit>
    requires Allowed(p)
  {
    if jobs == [] then multiset{}
    else Part(p, jobs[0].core, jobs[0].start, jobs[0].iters) + Rest(p, jobs[1..])
  }

  lemma {:induction false} RestAppend(p: Loop, jobs: seq<Job>, more: seq<Job>)
    requires Allowed(p)
    ensures Rest(p, jobs + more) == Rest(p, jobs) + Rest(p, more)
    decreases |jobs|
  {
    hide Part;
    if jobs == [] {
      assert jobs + more == more;
    } else {
      RestAppend(p, jobs[1..], more);
      assert (jobs + more)[1..] == jobs[1..] + more;
    }
  }

  lemma RestOne(p: Loop, b: Job)
    requires Allowed(p)
    ensures Rest(p, [b]) == Part(p, b.core, b.start, b.iters)
  {
    hide Part;
    assert [b][1..] == [];
  }

  /** One job's part can be told from the others'. */
  lemma RestAt(p: Loop, jobs: seq<Job>, i: nat)
    requires Allowed(p) && i < |jobs|
    ensures Rest(p, jobs) == Rest(p, jobs[..i] + jobs[i + 1..]) + Part(p, jobs[i].core, jobs[i].start, jobs[i].iters)
  {
    hide Part;
    assert jobs == jobs[..i] + ([jobs[i]] + jobs[i + 1..]);
    RestAppend(p, jobs[..i], [jobs[i]] + jobs[i + 1..]);
    RestAppend(p, [jobs[i]], jobs[i + 1..]);
    RestAppend(p, jobs[..i], jobs[i + 1..]);
    RestOne(p, jobs[i]);
  }

  lemma RestUpdate(p: Loop, jobs: seq<Job>, i: nat, b: Job)
    requires Allowed(p) && i < |jobs|
    ensures Rest(p, jobs[i := b]) + Part(p, jobs[i].core, jobs[i].start, jobs[i].iters)
         == Rest(p, jobs) + Part(p, b.core, b.start, b.iters)
  {
    hide Part, Rest;
    RestAt(p, jobs, i);
    RestAt(p, jobs[i := b], i);
    assert jobs[i := b][..i] + jobs[i := b][i + 1..] == jobs[..i] + jobs[i + 1..];
  }

  /** The shares that have not been sent. */
  function Unsent(p: Loop, pc: Pc): multiset<Visit>
    requires Allowed(p)
  {
    match pc
    case Before => Shares(p, 0)
    case Enrolling => Shares(p, 0)
    case Sending(k) => Shares(p, k)
    case _ => multiset{}
  }

  /** Every visit is done, or owed by exactly one job or unsent share. */
  ghost predicate Conserved(a: Call, j: Sys)
    requires Allowed(a.loop)
  {
    j.visits + Rest(a.loop, j.jobs) + Unsent(a.loop, j.pc) == Shares(a.loop, 0)
  }

  ghost predicate JobOk(a: Call, b: Job)
    requires Allowed(a.loop)
  {
    && b.core < a.loop.m.cores && b.home < a.loop.m.cores && b.start + b.iters < LIMIT_48
    && (b.forked ==> b.iters > 0)
  }

  lemma Cancel<T>(x: multiset<T>, m: multiset<T>, p: multiset<T>, r: multiset<T>)
    requires x + (p + m) == r + p
    ensures x + m == r
  {
    forall v ensures (x + m)[v] == r[v] {
      assert (x + (p + m))[v] == (r + p)[v];
    }
  }

  /** A job's range may be shared out between it and a new job. */
  lemma SharedOut(p: Loop, jobs: seq<Job>, i: nat, b: Job, other: Job)
    requires Allowed(p) && i < |jobs|
    requires Part(p, jobs[i].core, jobs[i].start, jobs[i].iters)
          == Part(p, b.core, b.start, b.iters) + Part(p, other.core, other.start, other.iters)
    ensures Rest(p, jobs[i := b] + [other]) == Rest(p, jobs)
  {
    hide Part, Rest, Allowed;
    RestUpdate(p, jobs, i, b);
    RestAppend(p, jobs[i := b], [other]);
    RestOne(p, other);
    Cancel(Rest(p, jobs[i := b]), Part(p, other.core, other.start, other.iters), Part(p, b.core, b.start, b.iters), Rest(p, jobs));
  }

  lemma Halves(a: Call, b: Job)
    requires Allowed(a.loop) && JobOk(a, b)
    ensures var left, right := (b.iters + 1) / 2, b.iters / 2;
      && left + right == b.iters && Packed(b.start + left) == b.start + left && Packed(right) == right
      && Part(a.loop, b.core, b.start, b.iters) == Part(a.loop, b.core, b.start, left) + Part(a.loop, b.core, b.start + left, right)
  {
    var left, right := (b.iters + 1) / 2, b.iters / 2;
    Pack48Keeps(b.start + left);
    Pack48Keeps(right);
    assert left + right == b.iters;
    hide Pack48, Part, Allowed;
    PartSplit(a.loop, b.core, b.start, left, right);
  }

  lemma SpawnConserves(a: Call, jobs: seq<Job>, i: nat, u: Task)
    requires Allowed(a.loop) && i < |jobs| && JobOk(a, jobs[i])
    ensures Rest(a.loop, jobs[i := LeftJob(jobs[i])] + [RightJob(jobs[i], u)]) == Rest(a.loop, jobs)
  {
    hide Packed, Part, Rest, Allowed;
    Halves(a, jobs[i]);
    SharedOut(a.loop, jobs, i, LeftJob(jobs[i]), RightJob(jobs[i], u));
  }

  lemma SendConserves(a: Call, jobs: seq<Job>, k: nat, u: Task)
    requires Allowed(a.loop) && k < Fanout(a.loop)
    ensures Rest(a.loop, jobs + [SentJob(a, k, u)]) + Shares(a.loop, k + 1) == Rest(a.loop, jobs) + Shares(a.loop, k)
  {
    hide Part, Rest, Allowed, Fanout;
    RestAppend(a.loop, jobs, [SentJob(a, k, u)]);
    RestOne(a.loop, SentJob(a, k, u));
    assert Shares(a.loop, k) == Share(a.loop, k) + Shares(a.loop, k + 1);
  }

  lemma Regroup<T>(x: multiset<T>, a: multiset<T>, b: multiset<T>, c: multiset<T>, d: multiset<T>)
    requires a + b == c + d
    ensures x + a + b == x + c + d
  {
    forall v ensures (x + a + b)[v] == (x + c + d)[v] {
      assert (a + b)[v] == (c + d)[v];
    }
  }

  lemma Moved<T>(x: multiset<T>, p: multiset<T>, a: multiset<T>, b: multiset<T>, u: multiset<T>)
    requires a + p == b
    ensures x + p + a + u == x + b + u
  {
  }

  lemma LeafConserves(p: Loop, jobs: seq<Job>, i: nat)
    requires Allowed(p) && i < |jobs|
    ensures var b := jobs[i];
      Rest(p, jobs[i := b.(start := b.start + b.iters, iters := 0)]) + Part(p, b.core, b.start, b.iters) == Rest(p, jobs)
  {
    hide Part, Rest, Allowed;
    var b := jobs[i];
    RestUpdate(p, jobs, i, b.(start := b.start + b.iters, iters := 0));
    PartEmpty(p, b.core, b.start + b.iters);
    assert Rest(p, jobs) + multiset{} == Rest(p, jobs);
  }

  lemma FinishConserves(p: Loop, jobs: seq<Job>, i: nat)
    requires Allowed(p) && i < |jobs| && jobs[i].iters == 0
    ensures Rest(p, jobs[..i] + jobs[i + 1..]) == Rest(p, jobs)
  {
    hide Part, Rest, Allowed;
    RestAt(p, jobs, i);
    PartEmpty(p, jobs[i].core, jobs[i].start);
    assert Rest(p, jobs[..i] + jobs[i + 1..]) + multiset{} == Rest(p, jobs[..i] + jobs[i + 1..]);
  }

  lemma ForkConserves(p: Loop, jobs: seq<Job>, i: nat)
    requires Allowed(p) && i < |jobs|
    ensures Rest(p, jobs[i := jobs[i].(forked := true)]) == Rest(p, jobs)
  {
    hide Part, Rest, Allowed;
    var b := jobs[i];
    RestUpdate(p, jobs, i, b.(forked := true));
    assert Rest(p, jobs) + multiset{} == Rest(p, jobs);
    Cancel(Rest(p, jobs[i := b.(forked := true)]), multiset{}, Part(p, b.core, b.start, b.iters), Rest(p, jobs));
  }

  /** What a step does to the visits done and owed. */
  lemma StepOwes(a: Call, j: Sys, step: Step)
    requires Allowed(a.loop) && Ready(a, j, step)
    requires forall i :: 0 <= i < |j.jobs| ==> JobOk(a, j.jobs[i])
    ensures NextVisits(a, j, step) + Rest(a.loop, NextJobs(a, j, step)) + Unsent(a.loop, NextPc(a, j, step))
         == j.visits + Rest(a.loop, j.jobs) + Unsent(a.loop, j.pc)
  {
    var p := a.loop;
    hide Part, Rest, Shares, Allowed, LeftJob, RightJob, SentJob, Fanout, JobOk;
    match step
    case SendTo(u) =>
      SendConserves(a, j.jobs, j.pc.k, u);
      Regroup(j.visits, Rest(p, j.jobs + [SentJob(a, j.pc.k, u)]), Shares(p, j.pc.k + 1), Rest(p, j.jobs), Shares(p, j.pc.k));
    case Ask => LastShare(p);
    case Fork(i) => ForkConserves(p, j.jobs, i);
    case Spawn(i, u) => SpawnConserves(a, j.jobs, i, u);
    case Leaf(i) =>
      LeafConserves(p, j.jobs, i);
      var b := j.jobs[i];
      Moved(j.visits, Part(p, b.core, b.start, b.iters),
            Rest(p, j.jobs[i := b.(start := b.start + b.iters, iters := 0)]), Rest(p, j.jobs), Unsent(p, j.pc));
    case Finish(i) => FinishConserves(p, j.jobs, i);
    case _ =>
  }

  lemma StepConserves(a: Call, j: Sys, step: Step)
    requires Allowed(a.loop) && Enabled(a, j, step) && Conserved(a, j)
    requires forall i :: 0 <= i < |j.jobs| ==> JobOk(a, j.jobs[i])
    ensures Conserved(a, Apply(a, j, step))
  {
    StepOwes(a, j, step);
    hide Rest, Unsent, Shares, Allowed, NextSys, NextJobs, NextVisits, NextPc, Ready, JobOk;
  }

  lemma LastShare(p: Loop)
    requires Allowed(p)
    ensures Shares(p, Fanout(p)) == multiset{}
  {
  }

  // ---------- The invariant ----------

  /** The enrollments on core d that a job stands for. */
  function Need(b: Job, d: nat): nat {
    (if d == b.home then 1 else 0) + (if b.forked && d == b.core then 1 else 0)
  }

  ghost predicate Holds(s: G.Sys, b: Job)
    requires G.Shape(s)
  {
    forall d :: 0 <= d < G.Cores(s) ==> s.held[d][b.t] >= Need(b, d)
  }

  predicate Distinct(jobs: seq<Job>, caller: Task) {
    && (forall i, k :: 0 <= i < k < |jobs| ==> jobs[i].t != jobs[k].t)
    && (forall i :: 0 <= i < |jobs| ==> jobs[i].t != caller)
  }

  /** The caller holds an enrollment for every share that it has not sent. */
  ghost predicate CallerHolds(a: Call, j: Sys)
    requires Allowed(a.loop) && G.Shape(j.s) && a.origin < G.Cores(j.s)
  {
    match j.pc
    case Before => j.jobs == []
    case Enrolling => j.s.held[a.origin][a.caller] >= Fanout(a.loop)
    case Sending(k) =>
      k <= Fanout(a.loop) && a.caller !in j.s.blocked && j.s.held[a.origin][a.caller] >= Fanout(a.loop) - k
    case _ => true
  }

  /** Something of the loop is still to be completed. */
  predicate Pending(a: Call, j: Sys)
    requires Allowed(a.loop)
  {
    j.jobs != [] || j.pc == Enrolling || (j.pc.Sending? && j.pc.k < Fanout(a.loop))
  }

  ghost predicate HoldsAll(a: Call, j: Sys)
    requires Allowed(a.loop)
  {
    && G.Shape(j.s) && G.Cores(j.s) == a.loop.m.cores && a.origin < G.Cores(j.s)
    && (forall i :: 0 <= i < |j.jobs| ==> JobOk(a, j.jobs[i]) && Holds(j.s, j.jobs[i]))
    && Distinct(j.jobs, a.caller) && CallerHolds(a, j)
  }

  /** The loop's phase is open as long as something is pending; the caller waits for its end. */
  ghost predicate PhaseOk(a: Call, j: Sys)
    requires Allowed(a.loop)
  {
    j.pc != Before ==>
      && 1 <= j.phase <= j.s.detected + 1
      && (j.phase == j.s.detected + 1 ==> j.s.stage == G.Active)
      && (Pending(a, j) ==> j.phase == j.s.detected + 1)
      && (j.pc != Enrolling ==> P.UntilDetected(j.s, j.phase))
      && (j.pc == Asked ==> P.WaitsFor(j.s, a.caller, j.phase))
      && (j.pc == Returned ==> j.phase <= j.s.detected)
  }

  ghost predicate Inv(a: Call, j: Sys)
    requires Allowed(a.loop)
  {
    G.Reachable(a.loop.m.cores, j.s) && HoldsAll(a, j) && Conserved(a, j) && PhaseOk(a, j)
  }

  lemma FanoutPositive(p: Loop)
    requires Allowed(p)
    ensures Fanout(p) >= 1 && p.m.cores >= 1
  {
    SpannedPositive(p.base, p.nelems, p.size);
  }

  lemma ProtocolInv(a: Call, s: G.Sys)
    requires Allowed(a.loop) && G.Reachable(a.loop.m.cores, s)
    ensures G.Shape(s) && GceSafety.Inv(s) && GceSafety.Lists(s) && s.rogue == {} && W.WakingInv(s)
  {
    FanoutPositive(a.loop);
    W.WakeReachableInv(a.loop.m.cores, s);
  }

  // ---------- The loop's calls are always allowed ----------

  lemma CallerAllowed(a: Call, j: Sys, step: Step)
    requires Allowed(a.loop) && HoldsAll(a, j) && Ready(a, j, step) && (step.SendTo? || step.Ask?)
    ensures Enabled(a, j, step)
  {
    hide Allowed, Fanout, JobOk, Holds, Distinct;
  }

  lemma JobAllowed(a: Call, j: Sys, step: Step)
    requires Allowed(a.loop) && HoldsAll(a, j) && Ready(a, j, step) && (step.Fork? || step.Spawn? || step.Finish?)
    ensures Enabled(a, j, step)
  {
    hide Allowed, Fanout, Distinct;
    var b := j.jobs[step.i];
    assert JobOk(a, b) && Holds(j.s, b);
    assert j.s.held[b.home][b.t] >= Need(b, b.home) >= 1;
    assert j.s.held[b.core][b.t] >= Need(b, b.core);
  }

  /**
   Whatever the loop's tasks do next, the protocol allows it: in particular every enroll
   of a task that is about to spawn another respects the rule.
   */
  lemma LoopObeysTheRule(a: Call, j: Sys, steps: seq<Step>, j': Sys, step: Step)
    requires Init(a, j) && Run(a, j, steps, j') && Ready(a, j', step) && !step.Start? && !step.Other?
    ensures Enabled(a, j', step)
  {
    InitInv(a, j);
    RunInv(a, j, steps, j');
    hide Run, Allowed, Conserved, PhaseOk, Init;
    match step
    case SendTo(_) => CallerAllowed(a, j', step);
    case Ask => CallerAllowed(a, j', step);
    case Fork(_) => JobAllowed(a, j', step);
    case Spawn(_, _) => JobAllowed(a, j', step);
    case Finish(_) => JobAllowed(a, j', step);
    case _ =>
  }

  // ---------- Steps keep what the tasks hold ----------

  /** A job keeps what it holds in steps of other tasks. */
  lemma JobKeeps(s: G.Sys, g: G.Step, b: Job)
    requires G.Enabled(s, g) && Holds(s, b) && P.Actor(g) != Some(b.t)
    ensures G.Shape(G.Apply(s, g)) && G.Cores(G.Apply(s, g)) == G.Cores(s) && Holds(G.Apply(s, g), b)
  {
    T.StepShape(s, g);
    forall d | 0 <= d < G.Cores(s) ensures G.Apply(s, g).held[d][b.t] >= Need(b, d) {
      P.HeldKept(s, g, b.t, d);
    }
    hide G.Apply;
  }

  lemma JobsKeep(a: Call, j: Sys, g: G.Step)
    requires Allowed(a.loop) && HoldsAll(a, j) && G.Enabled(j.s, g)
    ensures G.Shape(G.Apply(j.s, g)) && G.Cores(G.Apply(j.s, g)) == G.Cores(j.s)
    ensures forall i :: 0 <= i < |j.jobs| && P.Actor(g) != Some(j.jobs[i].t) ==> Holds(G.Apply(j.s, g), j.jobs[i])
  {
    T.StepShape(j.s, g);
    forall i | 0 <= i < |j.jobs| && P.Actor(g) != Some(j.jobs[i].t) ensures Holds(G.Apply(j.s, g), j.jobs[i]) {
      JobKeeps(j.s, g, j.jobs[i]);
    }
  }

  lemma CallerKeeps(a: Call, j: Sys, g: G.Step, j': Sys)
    requires Allowed(a.loop) && HoldsAll(a, j) && G.Enabled(j.s, g) && P.Actor(g) != Some(a.caller)
    requires j'.s == G.Apply(j.s, g) && j'.pc == j.pc && (j.pc == Before ==> j'.jobs == [])
    ensures G.Shape(j'.s) && G.Cores(j'.s) == G.Cores(j.s) && CallerHolds(a, j')
  {
    T.StepShape(j.s, g);
    P.HeldKept(j.s, g, a.caller, a.origin);
    if j.pc.Sending? { P.NotBlocked(j.s, g, a.caller); }
    hide G.Apply, Allowed, Fanout, JobOk, Holds, Distinct;
  }

  lemma HandedOver(s: G.Sys, t: Task, u: Task, c: nat)
    requires G.Enabled(s, G.HandOff(t, u, c)) && t != u
    ensures var s' := G.DoHandOff(s, t, u, c);
      && s'.held[c][t] == s.held[c][t] - 1 && s'.held[c][u] == s.held[c][u] + 1 && s'.blocked == s.blocked
      && forall d :: 0 <= d < G.Cores(s) && d != c ==> s'.held[d] == s.held[d]
  {
  }

  lemma FreshDistinct(a: Call, j: Sys, u: Task, jobs: seq<Job>, b: Job)
    requires Distinct(j.jobs, a.caller) && Fresh(a, j, u) && b.t == u
    requires |jobs| == |j.jobs| && forall i :: 0 <= i < |jobs| ==> jobs[i].t == j.jobs[i].t
    ensures Distinct(jobs + [b], a.caller)
  {
    forall i | 0 <= i < |jobs| ensures jobs[i].t != u {
      assert j.jobs[i].t != u;
    }
  }

  lemma StartHolds(a: Call, j: Sys, via: nat)
    requires Allowed(a.loop) && HoldsAll(a, j) && Enabled(a, j, Start(via))
    ensures HoldsAll(a, Apply(a, j, Start(via)))
  {
    T.EnrollKeeps(j.s, a.caller, a.origin, Fanout(a.loop), via);
    hide G.DoEnroll, Allowed, Fanout;
  }

  lemma SendHolds(a: Call, j: Sys, u: Task)
    requires Allowed(a.loop) && HoldsAll(a, j) && Enabled(a, j, SendTo(u))
    ensures HoldsAll(a, Apply(a, j, SendTo(u)))
  {
    var k, g := j.pc.k, G.HandOff(a.caller, u, a.origin);
    var b, s' := SentJob(a, k, u), G.Apply(j.s, g);
    ShareSizeBound(a.loop, k);
    JobsKeep(a, j, g);
    HandedOver(j.s, a.caller, u, a.origin);
    FreshDistinct(a, j, u, j.jobs, b);
    assert JobOk(a, b);
    assert Holds(s', b);
    hide Allowed, Fanout, JobOk, Holds, Distinct, G.Apply;
    var jobs := j.jobs + [b];
    forall i | 0 <= i < |jobs| ensures JobOk(a, jobs[i]) && Holds(s', jobs[i]) {
      assert i < |j.jobs| ==> jobs[i] == j.jobs[i];
    }
  }

  lemma AskHolds(a: Call, j: Sys)
    requires Allowed(a.loop) && HoldsAll(a, j) && Enabled(a, j, Ask)
    ensures HoldsAll(a, Apply(a, j, Ask))
  {
    JobsKeep(a, j, G.WaitStep(a.caller, a.origin));
    forall i | 0 <= i < |j.jobs| ensures P.Actor(G.WaitStep(a.caller, a.origin)) != Some(j.jobs[i].t) {
    }
    hide Allowed, Fanout, JobOk, Holds, Distinct, G.Apply;
  }

  lemma ForkHolds(a: Call, j: Sys, i: nat)
    requires Allowed(a.loop) && HoldsAll(a, j) && Enabled(a, j, Fork(i))
    ensures HoldsAll(a, Apply(a, j, Fork(i)))
  {
    var b := j.jobs[i];
    var g, j' := G.EnrollStep(b.t, b.core, 1, b.home), Apply(a, j, Fork(i));
    JobsKeep(a, j, g);
    CallerKeeps(a, j, g, j');
    ForkedHolds(j.s, b);
    OthersDiffer(j.jobs, a.caller, i);
    assert JobOk(a, b.(forked := true));
    hide Allowed, Fanout, JobOk, Holds, G.Apply, CallerHolds;
    forall k | 0 <= k < |j'.jobs| ensures JobOk(a, j'.jobs[k]) && Holds(j'.s, j'.jobs[k]) {
      assert k != i ==> j'.jobs[k] == j.jobs[k];
    }
  }

  lemma OthersDiffer(jobs: seq<Job>, caller: Task, i: nat)
    requires Distinct(jobs, caller) && i < |jobs|
    ensures forall k :: 0 <= k < |jobs| && k != i ==> jobs[k].t != jobs[i].t
  {
  }

  lemma ForkedHolds(s: G.Sys, b: Job)
    requires G.Enabled(s, G.EnrollStep(b.t, b.core, 1, b.home)) && Holds(s, b) && !b.forked
    ensures var s' := G.DoEnroll(s, b.t, b.core, 1, b.home);
      G.Shape(s') && G.Cores(s') == G.Cores(s) && Holds(s', b.(forked := true))
  {
    T.EnrollKeeps(s, b.t, b.core, 1, b.home);
    hide G.DoEnroll;
  }

  lemma SpawnHolds(a: Call, j: Sys, i: nat, u: Task)
    requires Allowed(a.loop) && HoldsAll(a, j) && Enabled(a, j, Spawn(i, u))
    ensures HoldsAll(a, Apply(a, j, Spawn(i, u)))
  {
    var b := j.jobs[i];
    var g, j' := G.HandOff(b.t, u, b.core), Apply(a, j, Spawn(i, u));
    JobsKeep(a, j, g);
    CallerKeeps(a, j, g, j');
    SpawnedHolds(a, j.s, b, u);
    OthersDiffer(j.jobs, a.caller, i);
    FreshDistinct(a, j, u, j.jobs[i := LeftJob(b)], RightJob(b, u));
    hide Allowed, Fanout, JobOk, Holds, G.Apply, CallerHolds, LeftJob, RightJob, Distinct;
    forall k | 0 <= k < |j'.jobs| ensures JobOk(a, j'.jobs[k]) && Holds(j'.s, j'.jobs[k]) {
      assert k < |j.jobs| && k != i ==> j'.jobs[k] == j.jobs[k];
    }
  }

  lemma JobCore(a: Call, b: Job)
    requires Allowed(a.loop) && JobOk(a, b)
    ensures b.core < a.loop.m.cores
  {
  }

  lemma HalvesOk(a: Call, b: Job, u: Task)
    requires Allowed(a.loop) && JobOk(a, b)
    ensures JobOk(a, LeftJob(b)) && JobOk(a, RightJob(b, u))
  {
    hide Packed, Part, Allowed;
    Halves(a, b);
  }

  lemma SpawnedHolds(a: Call, s: G.Sys, b: Job, u: Task)
    requires Allowed(a.loop) && G.Enabled(s, G.HandOff(b.t, u, b.core)) && Holds(s, b) && b.forked && JobOk(a, b) && u != b.t
    ensures var s' := G.DoHandOff(s, b.t, u, b.core);
      && G.Shape(s') && Holds(s', LeftJob(b)) && Holds(s', RightJob(b, u)) && JobOk(a, LeftJob(b)) && JobOk(a, RightJob(b, u))
  {
    hide Packed, Part, Allowed, JobOk, Holds, LeftJob, RightJob;
    HandedOver(s, b.t, u, b.core);
    HalvesOk(a, b, u);
    JobCore(a, b);
    HalvesHold(G.DoHandOff(s, b.t, u, b.core), s, b, u);
  }

  lemma HalvesHold(s': G.Sys, s: G.Sys, b: Job, u: Task)
    requires G.Shape(s) && G.Shape(s') && G.Cores(s') == G.Cores(s) && b.core < G.Cores(s) && Holds(s, b) && b.forked
    requires s'.held[b.core][b.t] == s.held[b.core][b.t] - 1 && s'.held[b.core][u] == s.held[b.core][u] + 1
    requires forall d :: 0 <= d < G.Cores(s) && d != b.core ==> s'.held[d] == s.held[d]
    ensures Holds(s', LeftJob(b)) && Holds(s', RightJob(b, u))
  {
    hide Packed;
    forall d | 0 <= d < G.Cores(s) ensures s'.held[d][b.t] >= Need(LeftJob(b), d) {
      assert s.held[d][b.t] >= Need(b, d);
    }
  }

  lemma FinishHolds(a: Call, j: Sys, i: nat)
    requires Allowed(a.loop) && HoldsAll(a, j) && Enabled(a, j, Finish(i))
    ensures HoldsAll(a, Apply(a, j, Finish(i)))
  {
    var b := j.jobs[i];
    var g, j' := G.CompleteStep(b.t, b.core, b.home, 1), Apply(a, j, Finish(i));
    JobsKeep(a, j, g);
    CallerKeeps(a, j, g, j');
    OthersDiffer(j.jobs, a.caller, i);
    RemovedDistinct(j.jobs, a.caller, i);
    hide Allowed, Fanout, JobOk, Holds, G.Apply, CallerHolds, Distinct;
    forall k | 0 <= k < |j'.jobs| ensures JobOk(a, j'.jobs[k]) && Holds(j'.s, j'.jobs[k]) {
      assert j'.jobs[k] == j.jobs[if k < i then k else k + 1];
    }
  }

  lemma RemovedDistinct(jobs: seq<Job>, caller: Task, i: nat)
    requires Distinct(jobs, caller) && i < |jobs|
    ensures Distinct(jobs[..i] + jobs[i + 1..], caller)
  {
    var rest := jobs[..i] + jobs[i + 1..];
    forall k | 0 <= k < |rest| ensures rest[k] == jobs[if k < i then k else k + 1] {
    }
  }

  lemma LeafHolds(a: Call, j: Sys, i: nat)
    requires Allowed(a.loop) && HoldsAll(a, j) && Enabled(a, j, Leaf(i))
    ensures HoldsAll(a, Apply(a, j, Leaf(i)))
  {
    var j' := Apply(a, j, Leaf(i));
    hide Allowed, Fanout;
    forall k | 0 <= k < |j'.jobs| ensures JobOk(a, j'.jobs[k]) && Holds(j'.s, j'.jobs[k]) {
      assert JobOk(a, j.jobs[k]) && Holds(j.s, j.jobs[k]);
      assert k != i ==> j'.jobs[k] == j.jobs[k];
    }
  }

  lemma OtherHolds(a: Call, j: Sys, g: G.Step)
    requires Allowed(a.loop) && HoldsAll(a, j) && Enabled(a, j, Other(g))
    ensures HoldsAll(a, Apply(a, j, Other(g)))
  {
    var j' := Apply(a, j, Other(g));
    JobsKeep(a, j, g);
    forall i | 0 <= i < |j.jobs| ensures P.Actor(g) != Some(j.jobs[i].t) {
      assert IsJob(j, j.jobs[i].t);
    }
    if P.Actor(g) != Some(a.caller) {
      CallerKeeps(a, j, g, j');
    }
    hide Allowed, Fanout, JobOk, Holds, Distinct, G.Apply;
  }

  lemma StepHolds(a: Call, j: Sys, step: Step)
    requires Allowed(a.loop) && HoldsAll(a, j) && Enabled(a, j, step)
    ensures HoldsAll(a, Apply(a, j, step))
  {
    match step
    case Start(via) => StartHolds(a, j, via);
    case SendTo(u) => SendHolds(a, j, u);
    case Ask => AskHolds(a, j);
    case Fork(i) => ForkHolds(a, j, i);
    case Spawn(i, u) => SpawnHolds(a, j, i, u);
    case Leaf(i) => LeafHolds(a, j, i);
    case Finish(i) => FinishHolds(a, j, i);
    case Other(g) => OtherHolds(a, j, g);
    case _ =>
  }

  // ---------- Steps keep the phase open ----------

  /** While something is pending, an enrollment is outstanding. */
  lemma PendingHeld(a: Call, j: Sys)
    requires Allowed(a.loop) && HoldsAll(a, j) && Pending(a, j)
    ensures !T.AllDone(j.s)
  {
    FanoutPositive(a.loop);
    hide Allowed, Fanout;
    if j.jobs != [] {
      assert JobOk(a, j.jobs[0]) && Holds(j.s, j.jobs[0]);
      assert j.s.held[j.jobs[0].home][j.jobs[0].t] >= Need(j.jobs[0], j.jobs[0].home) >= 1;
    } else {
      assert a.caller in j.s.held[a.origin];
    }
  }

  /** What a step of the protocol does to an open phase. */
  lemma ProtocolPhase(a: Call, j: Sys, g: G.Step)
    requires Allowed(a.loop) && Inv(a, j) && G.Enabled(j.s, g) && j.pc != Before
    ensures var s' := G.Apply(j.s, g);
      && j.s.detected <= s'.detected && j.phase <= s'.detected + 1
      && (j.phase == s'.detected + 1 ==> s'.stage == G.Active)
      && (Pending(a, j) ==> j.phase == s'.detected + 1)
      && (j.pc != Enrolling ==> P.UntilDetected(s', j.phase))
  {
    ProtocolInv(a, j.s);
    P.StepDetects(j.s, g);
    if Pending(a, j) { PendingHeld(a, j); }
    if j.pc != Enrolling { P.StepUntilDetected(j.s, g, j.phase); }
    if j.phase == G.Apply(j.s, g).detected + 1 {
      StillActive(j.s, g);
    }
    hide G.Apply, GceSafety.Inv, W.WakingInv, P.UntilDetected, HoldsAll, Conserved, Allowed;
  }

  lemma StillActive(s: G.Sys, g: G.Step)
    requires GceSafety.Inv(s) && s.rogue == {} && s.stage == G.Active && G.Enabled(s, g) && G.Apply(s, g).detected == s.detected
    ensures G.Apply(s, g).stage == G.Active
  {
    if g.DeliverEnter? { P.EntryDetects(s); P.EntryIs(s); }
    Causal.StaysActive(s, g);
  }

  lemma StartPhase(a: Call, j: Sys, via: nat)
    requires Allowed(a.loop) && Inv(a, j) && Enabled(a, j, Start(via))
    ensures PhaseOk(a, Apply(a, j, Start(via)))
  {
    var g := G.EnrollStep(a.caller, a.origin, Fanout(a.loop), via);
    ProtocolInv(a, j.s);
    StartHolds(a, j, via);
    PendingHeld(a, Apply(a, j, Start(via)));
    T.StepInv(j.s, g);
    hide Allowed, Fanout;
    HeldIsActive(G.Apply(j.s, g));
  }

  lemma HeldIsActive(s: G.Sys)
    requires GceSafety.Inv(s) && !T.AllDone(s)
    ensures s.stage == G.Active
  {
  }

  lemma EnrolledPhase(a: Call, j: Sys)
    requires Allowed(a.loop) && Inv(a, j) && Enabled(a, j, Enrolled)
    ensures PhaseOk(a, Apply(a, j, Enrolled))
  {
    ProtocolInv(a, j.s);
    FanoutPositive(a.loop);
    hide Allowed, Fanout;
    assert a.caller in j.s.held[a.origin];
    GceSafety.HolderIsRunning(j.s, a.caller, a.origin);
    hide GceSafety.Inv, W.WakingInv;
  }

  lemma AskPhase(a: Call, j: Sys)
    requires Allowed(a.loop) && Inv(a, j) && Enabled(a, j, Ask)
    ensures PhaseOk(a, Apply(a, j, Ask))
  {
    ProtocolPhase(a, j, G.WaitStep(a.caller, a.origin));
    P.AskWaits(j.s, a.caller, a.origin, j.phase);
    hide Allowed, Fanout, P.UntilDetected, P.WaitsFor, G.Apply, HoldsAll, Conserved;
  }

  /** The phase after a step of the protocol that is not the caller's. */
  lemma PhaseFrom(a: Call, j: Sys, g: G.Step, j': Sys)
    requires Allowed(a.loop) && Inv(a, j) && G.Enabled(j.s, g) && j.pc != Before
    requires j.pc == Asked ==> P.Actor(g) != Some(a.caller)
    requires j'.s == G.Apply(j.s, g) && j'.phase == j.phase && (j'.pc == j.pc || (j.pc.Sending? && j'.pc.Sending?))
    requires Pending(a, j') ==> Pending(a, j)
    ensures PhaseOk(a, j')
  {
    ProtocolPhase(a, j, g);
    if j.pc == Asked {
      ProtocolInv(a, j.s);
      AskedWaits(a, j);
      hide Inv, GceSafety.Inv, W.WakingInv, P.UntilDetected, P.WaitsFor, G.Apply, Pending;
      P.StepWaitsFor(j.s, g, a.caller, j.phase);
    } else {
      assert 1 <= j.phase && (j.pc == Returned ==> j.phase <= j.s.detected);
      hide Inv, P.UntilDetected, P.WaitsFor, G.Apply, Pending;
    }
  }

  lemma AskedWaits(a: Call, j: Sys)
    requires Allowed(a.loop) && Inv(a, j) && j.pc == Asked
    ensures 1 <= j.phase && P.UntilDetected(j.s, j.phase) && P.WaitsFor(j.s, a.caller, j.phase)
  {
    hide Allowed, HoldsAll, Conserved, P.UntilDetected, P.WaitsFor, Pending;
  }

  lemma OtherPhase(a: Call, j: Sys, g: G.Step)
    requires Allowed(a.loop) && Inv(a, j) && Enabled(a, j, Other(g))
    ensures PhaseOk(a, Apply(a, j, Other(g)))
  {
    hide Inv, PhaseOk, Allowed, IsJob, G.Apply;
    if j.pc != Before {
      PhaseFrom(a, j, g, Apply(a, j, Other(g)));
    } else {
      NotStarted(a, Apply(a, j, Other(g)));
    }
  }

  lemma NotStarted(a: Call, j: Sys)
    requires Allowed(a.loop) && j.pc == Before
    ensures PhaseOk(a, j)
  {
  }

  lemma JobPhase(a: Call, j: Sys, step: Step)
    requires Allowed(a.loop) && Inv(a, j) && Enabled(a, j, step) && (step.SendTo? || step.Fork? || step.Spawn? || step.Finish?)
    ensures PhaseOk(a, Apply(a, j, step))
  {
    JobActor(a, j, step);
    hide Inv, PhaseOk, Allowed, G.Apply, Fanout, LeftJob, RightJob, SentJob;
    PhaseFrom(a, j, Protocol(a, j, step).value, Apply(a, j, step));
  }

  lemma JobActor(a: Call, j: Sys, step: Step)
    requires Allowed(a.loop) && Inv(a, j) && Enabled(a, j, step) && (step.SendTo? || step.Fork? || step.Spawn? || step.Finish?)
    ensures j.pc != Before && (j.pc == Asked ==> P.Actor(Protocol(a, j, step).value) != Some(a.caller))
  {
    hide Allowed, Conserved, PhaseOk, JobOk, Holds, Fanout;
  }

  lemma StepPhase(a: Call, j: Sys, step: Step)
    requires Allowed(a.loop) && Inv(a, j) && Enabled(a, j, step)
    ensures PhaseOk(a, Apply(a, j, step))
  {
    match step
    case Start(via) => StartPhase(a, j, via);
    case Enrolled => EnrolledPhase(a, j);
    case Ask => AskPhase(a, j);
    case Back => QuietPhase(a, j, step);
    case Leaf(i) => QuietPhase(a, j, step);
    case Other(g) => OtherPhase(a, j, g);
    case _ => JobPhase(a, j, step);
  }

  lemma QuietPhase(a: Call, j: Sys, step: Step)
    requires Allowed(a.loop) && Inv(a, j) && Enabled(a, j, step) && (step.Back? || step.Leaf?)
    ensures PhaseOk(a, Apply(a, j, step))
  {
    hide Allowed, Fanout, HoldsAll, Conserved, P.UntilDetected;
  }

  // ---------- Runs ----------

  lemma StepReachable(a: Call, j: Sys, step: Step)
    requires Allowed(a.loop) && G.Reachable(a.loop.m.cores, j.s) && Enabled(a, j, step)
    ensures G.Reachable(a.loop.m.cores, Apply(a, j, step).s)
  {
    hide G.Reachable, Allowed, Ready;
    if Protocol(a, j, step).Some? {
      GceRuns.ReachableStep(a.loop.m.cores, j.s, Protocol(a, j, step).value);
    }
  }

  lemma StepInv(a: Call, j: Sys, step: Step)
    requires Allowed(a.loop) && Inv(a, j) && Enabled(a, j, step)
    ensures Inv(a, Apply(a, j, step))
  {
    StepReachable(a, j, step);
    StepHolds(a, j, step);
    StepConserves(a, j, step);
    StepPhase(a, j, step);
    hide Allowed, G.Reachable, HoldsAll, Conserved, PhaseOk, Apply, Enabled;
  }

  lemma {:induction false} RunInv(a: Call, j: Sys, steps: seq<Step>, j': Sys)
    requires Allowed(a.loop) && Inv(a, j) && Run(a, j, steps, j')
    ensures Inv(a, j')
    decreases |steps|
  {
    hide Allowed, Inv, Apply, Enabled;
    if steps != [] {
      StepInv(a, j, steps[0]);
      RunInv(a, Apply(a, j, steps[0]), steps[1..], j');
    }
  }

  lemma InitInv(a: Call, j: Sys)
    requires Init(a, j)
    ensures Inv(a, j)
  {
    hide GceSafety.Inv, W.WakingInv, GceSafety.Lists, Shares, G.Reachable;
    ProtocolInv(a, j.s);
    FanoutPositive(a.loop);
    W.ReachableCores(a.loop.m.cores, j.s);
    hide Allowed;
    assert multiset{} + Rest(a.loop, []) + Shares(a.loop, 0) == Shares(a.loop, 0);
  }

  /** Nothing pending: every visit has been made. */
  lemma NothingPending(a: Call, j: Sys, v: Visit)
    requires Allowed(a.loop) && Inv(a, j) && !Pending(a, j) && j.pc != Before
    ensures j.visits[v] == if Expected(a.loop.m, a.loop.base, a.loop.nelems, a.loop.size, v) then 1 else 0
  {
    hide Part, Shares, Expected;
    SharesAreExpected(a.loop, v);
    LastShare(a.loop);
    assert Unsent(a.loop, j.pc) == multiset{} by { hide Fanout; }
    assert j.visits + Rest(a.loop, []) + multiset{} == j.visits;
  }

  /**
   When a blocking forall returns to its caller, every index has been visited exactly
   once, on the home core of its element and with that element, and nothing else has:
   in every run, whatever else the event is used for meanwhile.
   */
  lemma ForallReturnsDone(a: Call, j: Sys, steps: seq<Step>, j': Sys, v: Visit)
    requires Init(a, j) && Run(a, j, steps, j') && j'.pc == Returned
    ensures j'.visits[v] == if Expected(a.loop.m, a.loop.base, a.loop.nelems, a.loop.size, v) then 1 else 0
  {
    InitInv(a, j);
    RunInv(a, j, steps, j');
    hide Run, Allowed, Conserved, HoldsAll, Init, Expected;
    NothingPending(a, j', v);
  }

  /** Detection, too, comes only when every index has been visited. */
  lemma ForallDetected(a: Call, j: Sys, steps: seq<Step>, j': Sys, v: Visit)
    requires Init(a, j) && Run(a, j, steps, j') && j'.pc != Before && G.Shape(j'.s)
    requires G.Enter in j'.s.net && j'.s.locals[C.MASTER].coresOut == 1
    ensures j'.visits[v] == if Expected(a.loop.m, a.loop.base, a.loop.nelems, a.loop.size, v) then 1 else 0
  {
    InitInv(a, j);
    RunInv(a, j, steps, j');
    FanoutPositive(a.loop);
    T.DetectionSafety(a.loop.m.cores, j'.s);
    hide Run, Allowed, Conserved, Init, Expected, G.Reachable, T.AllDone, PhaseOk;
    if Pending(a, j') { PendingHeld(a, j'); assert false; }
    NothingPending(a, j', v);
  }
}
