/**
 The GlobalCompletionEvent protocol with flattened completions.  In place of a number of
 completions on their way to each core there are the completion messages of all cores,
 counters and serialized copies.  Every run of this system is a run of the protocol, so
 what holds of the protocol holds with flattening.
 */
module FlattenedProtocol {
  import opened Basics
  import opened Sums
  import opened F = FlattenedCompletions
  import G = GceProtocol
  import C = GceCore
  import GceRuns
  import GceSafety
  import T = GceTheorems

  /** `flats[d]` holds everything that is on its way to core d. */
  datatype Joint = Joint(s: G.Sys, flats: seq<Flat>)

  datatype JointStep =
    | Completes(t: Task, c: nat, d: nat, k: nat)   // task t on core c completes k enrollments on core d
    | Copies(c: nat, d: nat)                       // core c's message to d is copied into the network
    | Frees(c: nat, d: nat)                        // core c learns that its message to d was sent
    | Arrives(d: nat, i: nat)                      // a copy reaches core d
    | Other(step: G.Step)                          // any step that has to do with no completion

  /** What the completion messages see of a completion. */
  function Sending(c: nat, d: nat, k: nat): F.Step {
    if c == d then Local(k) else Send(c, k)
  }

  predicate JointEnabled(j: Joint, step: JointStep) {
    && |j.flats| == G.Cores(j.s)
    && match step
       case Completes(t, c, d, k) =>
         && G.Enabled(j.s, G.CompleteStep(t, c, d, k))
         && F.Enabled(j.flats[d], Sending(c, d, k)) && F.Unit(j.flats[d], Sending(c, d, k))
       case Copies(c, d) => d < |j.flats| && F.Enabled(j.flats[d], Serialize(c))
       case Frees(c, d) => d < |j.flats| && F.Enabled(j.flats[d], MarkSent(c))
       case Arrives(d, i) =>
         d < |j.flats| && F.Enabled(j.flats[d], Deliver(i)) && G.Enabled(j.s, G.DeliverCompletion(d, j.flats[d].flying[i]))
       case Other(step) => G.Enabled(j.s, step) && !step.CompleteStep? && !step.DeliverCompletion?
  }

  function JointApply(j: Joint, step: JointStep): Joint
    requires JointEnabled(j, step)
  {
    match step
    case Completes(t, c, d, k) =>
      Joint(G.Apply(j.s, G.CompleteStep(t, c, d, k)), j.flats[d := F.Apply(j.flats[d], Sending(c, d, k))])
    case Copies(c, d) => j.(flats := j.flats[d := F.Apply(j.flats[d], Serialize(c))])
    case Frees(c, d) => j.(flats := j.flats[d := F.Apply(j.flats[d], MarkSent(c))])
    case Arrives(d, i) =>
      Joint(G.Apply(j.s, G.DeliverCompletion(d, j.flats[d].flying[i])), j.flats[d := F.Apply(j.flats[d], Deliver(i))])
    case Other(step) => j.(s := G.Apply(j.s, step))
  }

  ghost predicate JointRun(j: Joint, steps: seq<JointStep>, j': Joint)
    decreases |steps|
  {
    if steps == [] then j' == j
    else JointEnabled(j, steps[0]) && JointRun(JointApply(j, steps[0]), steps[1..], j')
  }

  function InitJoint(n: nat): Joint {
    Joint(G.InitSys(n), seq(n, _ => InitFlat(n)))
  }

  // ---------- The link between the two ----------

  /** Every message and every copy carries at least one completion. */
  predicate Carrying(f: Flat) {
    && (forall i :: 0 <= i < |f.flying| ==> f.flying[i] >= 1)
    && (forall c :: 0 <= c < |f.channels| && f.channels[c].waiting && !f.channels[c].serialized ==> f.channels[c].dec >= 1)
  }

  predicate FlatOk(f: Flat) {
    Tidy(f) && Conserved(f) && Carrying(f)
  }

  /** The protocol's completions on their way are those in messages and copies. */
  ghost predicate Linked(j: Joint) {
    && G.Shape(j.s) && |j.flats| == G.Cores(j.s)
    && forall d :: 0 <= d < |j.flats| ==> FlatOk(j.flats[d]) && j.s.completing[d] == Outstanding(j.flats[d])
  }

  lemma FlatStepOk(f: Flat, step: F.Step)
    requires FlatOk(f) && F.Enabled(f, step) && F.Unit(f, step) && (step.Send? ==> step.dec >= 1)
    ensures FlatOk(F.Apply(f, step))
    ensures Outstanding(F.Apply(f, step)) ==
      Outstanding(f) + (if step.Send? then step.dec else 0) - (if step.Deliver? then f.flying[step.i] else 0)
  {
    StepConserves(f, step);
    hide Outstanding;
  }

  /** A step that completes nothing leaves the completions on their way alone. */
  lemma OtherCompleting(s: G.Sys, step: G.Step)
    requires G.Enabled(s, step) && !step.CompleteStep? && !step.DeliverCompletion?
    ensures G.Shape(G.Apply(s, step)) && G.Cores(G.Apply(s, step)) == G.Cores(s)
    ensures G.Apply(s, step).completing == s.completing
  {
    T.StepShape(s, step);
    match step
    case EnrollStep(t, c, inc, via) => T.EnrollKeeps(s, t, c, inc, via);
    case DeliverCancelled(t) => T.FinishKeeps(s, t, s.blocked[t].at, s.blocked[t].co);
    case DeliverEnter => T.MasterKeeps(s);
    case DeliverResetAck => T.MasterKeeps(s);
    case _ => RestCompleting(s, step);
  }

  lemma RestCompleting(s: G.Sys, step: G.Step)
    requires G.Enabled(s, step) && !step.CompleteStep? && !step.DeliverCompletion? && !step.EnrollStep?
    requires !step.DeliverCancelled? && !step.DeliverEnter? && !step.DeliverResetAck?
    ensures G.Apply(s, step).completing == s.completing
  {
  }

  lemma CompletesCompleting(s: G.Sys, t: Task, c: nat, d: nat, k: nat)
    requires G.Enabled(s, G.CompleteStep(t, c, d, k))
    ensures G.DoComplete(s, t, c, d, k).completing ==
      if c == d then s.completing else s.completing[d := s.completing[d] + k]
  {
  }

  lemma ArrivesCompleting(s: G.Sys, d: nat, k: nat)
    requires G.Enabled(s, G.DeliverCompletion(d, k))
    ensures G.DoDeliverCompletion(s, d, k).completing == s.completing[d := s.completing[d] - k]
  {
  }

  lemma CompletesLinked(j: Joint, t: Task, c: nat, d: nat, k: nat)
    requires Linked(j) && JointEnabled(j, Completes(t, c, d, k))
    ensures Linked(JointApply(j, Completes(t, c, d, k)))
  {
    hide FlatOk, Outstanding;
    T.StepShape(j.s, G.CompleteStep(t, c, d, k));
    CompletesCompleting(j.s, t, c, d, k);
    FlatStepOk(j.flats[d], Sending(c, d, k));
    hide G.DoComplete, F.Apply;
  }

  lemma ArrivesLinked(j: Joint, d: nat, i: nat)
    requires Linked(j) && JointEnabled(j, Arrives(d, i))
    ensures Linked(JointApply(j, Arrives(d, i)))
  {
    hide FlatOk, Outstanding;
    T.StepShape(j.s, G.DeliverCompletion(d, j.flats[d].flying[i]));
    ArrivesCompleting(j.s, d, j.flats[d].flying[i]);
    FlatStepOk(j.flats[d], Deliver(i));
    hide G.DoDeliverCompletion, F.Apply;
  }

  lemma FlatLinked(j: Joint, d: nat, step: F.Step)
    requires Linked(j) && d < |j.flats| && F.Enabled(j.flats[d], step) && (step.Serialize? || step.MarkSent?)
    ensures Linked(j.(flats := j.flats[d := F.Apply(j.flats[d], step)]))
  {
    hide FlatOk, Outstanding;
    FlatStepOk(j.flats[d], step);
    hide F.Apply;
  }

  lemma JointStepLinked(j: Joint, step: JointStep)
    requires Linked(j) && JointEnabled(j, step)
    ensures Linked(JointApply(j, step))
  {
    hide FlatOk, Outstanding;
    match step
    case Completes(t, c, d, k) => CompletesLinked(j, t, c, d, k);
    case Copies(c, d) => FlatLinked(j, d, Serialize(c));
    case Frees(c, d) => FlatLinked(j, d, MarkSent(c));
    case Arrives(d, i) => ArrivesLinked(j, d, i);
    case Other(step) => OtherCompleting(j.s, step); hide G.Apply;
  }

  lemma InitJointSys(n: nat)
    ensures InitJoint(n).s == G.InitSys(n)
  {
  }

  lemma InitFlatOk(n: nat)
    ensures FlatOk(InitFlat(n)) && Outstanding(InitFlat(n)) == 0
  {
    InitConserves(n);
    hide Tidy, Outstanding;
  }

  lemma InitJointParts(n: nat)
    requires n >= 1
    ensures G.Shape(InitJoint(n).s) && |InitJoint(n).flats| == n == G.Cores(InitJoint(n).s)
    ensures forall d :: 0 <= d < n ==> InitJoint(n).flats[d] == InitFlat(n) && InitJoint(n).s.completing[d] == 0
  {
    hide InitFlat;
  }

  lemma InitLinked(n: nat)
    requires n >= 1
    ensures Linked(InitJoint(n))
  {
    InitFlatOk(n);
    InitJointParts(n);
    hide FlatOk, Outstanding, InitFlat, InitJoint, G.InitSys;
  }

  lemma JointStepReachable(n: nat, j: Joint, step: JointStep)
    requires G.Reachable(n, j.s) && JointEnabled(j, step)
    ensures G.Reachable(n, JointApply(j, step).s)
  {
    hide G.Reachable;
    match step
    case Completes(t, c, d, k) => GceRuns.ReachableStep(n, j.s, G.CompleteStep(t, c, d, k));
    case Arrives(d, i) => GceRuns.ReachableStep(n, j.s, G.DeliverCompletion(d, j.flats[d].flying[i]));
    case Other(step) => GceRuns.ReachableStep(n, j.s, step);
    case _ =>
  }

  lemma {:induction false} JointRunRefines(n: nat, j: Joint, steps: seq<JointStep>, j': Joint)
    requires Linked(j) && G.Reachable(n, j.s) && JointRun(j, steps, j')
    ensures Linked(j') && G.Reachable(n, j'.s)
    decreases |steps|
  {
    if steps != [] {
      JointStepLinked(j, steps[0]);
      JointStepReachable(n, j, steps[0]);
      hide Linked, G.Reachable;
      JointRunRefines(n, JointApply(j, steps[0]), steps[1..], j');
    }
  }

  /**
   Every run with flattening is a run of the protocol, in which the completions on their
   way to a core are those recorded in messages and copies.
   */
  lemma FlatteningRefines(n: nat, steps: seq<JointStep>, j: Joint)
    requires n >= 1 && JointRun(InitJoint(n), steps, j)
    ensures G.Reachable(n, j.s) && |j.flats| == |j.s.completing|
    ensures forall d :: 0 <= d < |j.flats| ==> j.s.completing[d] == Sum(j.flats[d].flying) + SumPending(j.flats[d].channels)
  {
    hide G.Reachable, JointRun, InitJoint;
    InitLinked(n);
    GceRuns.ReachableInit(n);
    InitJointSys(n);
    JointRunRefines(n, InitJoint(n), steps, j);
  }

  /** A copy that arrives is always a step of the protocol: it completes no more than is outstanding. */
  lemma ArrivalIsCompletion(n: nat, steps: seq<JointStep>, j: Joint, d: nat, i: nat)
    requires n >= 1 && JointRun(InitJoint(n), steps, j) && d < |j.flats| && i < |j.flats[d].flying|
    ensures JointEnabled(j, Arrives(d, i))
  {
    hide G.Reachable, JointRun, InitJoint;
    InitLinked(n);
    GceRuns.ReachableInit(n);
    InitJointSys(n);
    JointRunRefines(n, InitJoint(n), steps, j);
    SumRemove(j.flats[d].flying, i);
  }

  /** Detection is sound with flattening: when the last entry arrives, no message or copy carries a completion. */
  lemma FlattenedDetection(n: nat, steps: seq<JointStep>, j: Joint, d: nat)
    requires n >= 1 && JointRun(InitJoint(n), steps, j) && d < |j.flats|
    ensures G.Shape(j.s) && !j.s.failed
    ensures G.Enter in j.s.net && j.s.locals[C.MASTER].coresOut == 1 ==>
      T.AllDone(j.s) && j.flats[d].flying == [] && SumPending(j.flats[d].channels) == 0
  {
    hide G.Reachable, JointRun, InitJoint;
    InitLinked(n);
    GceRuns.ReachableInit(n);
    InitJointSys(n);
    JointRunRefines(n, InitJoint(n), steps, j);
    T.DetectionSafety(n, j.s);
  }
}
