/**
 Which enrolls are safe, exactly.  The header asks that every enroll is followed by a
 complete in the same task or in one spawned from it.  That is not what safety depends
 on: an enroll by any task can never lead to a failed CHECK if and only if it respects
 the rule `MayEnroll`, or some task that holds work is itself waiting for the end of the
 phase, which then never ends.
 */
module GceCausality {
  import opened Basics
  import opened GceCore
  import opened GceProtocol
  import opened GceRuns
  import opened GceSafety
  import opened GceTheorems
  import opened GceWake
  import opened GceTwoCores
  import opened GceRogue
  import opened GceOverrun

  // ---------- Blocked tasks are on some core ----------

  lemma StepPlaced(s: Sys, step: Step)
    requires Placed(s) && Enabled(s, step)
    ensures Placed(Apply(s, step))
  {
    StepShape(s, step);
    match step
    case EnrollStep(t, c, inc, via) => EnrollPlaced(s, t, c, inc, via);
    case DeliverCancelled(t) => FinishPlaced(s, t, s.blocked[t].at, s.blocked[t].co);
    case DeliverEnter => MasterKeeps(s);
    case DeliverResetAck => MasterKeeps(s);
    case WaitStep(t, c) => WaitingPlaced(s, step);
    case DeliverProbed(t) => WaitingPlaced(s, step);
    case DeliverWake(c) => WaitingPlaced(s, step);
    case DeliverProbe(t) => WaitingPlaced(s, step);
    case _ => MessagePlaced(s, step);
  }

  lemma WaitingPlaced(s: Sys, step: Step)
    requires Placed(s) && Enabled(s, step) && Cores(Apply(s, step)) == Cores(s)
    requires step.WaitStep? || step.DeliverProbe? || step.DeliverProbed? || step.DeliverWake?
    ensures Placed(Apply(s, step))
  {
  }

  lemma MessagePlaced(s: Sys, step: Step)
    requires Placed(s) && Enabled(s, step) && Cores(Apply(s, step)) == Cores(s)
    requires step.DeliverCancel? || step.DeliverProgress? || step.DeliverProgressAck? || step.HandOff? || step.DeliverReset?
      || step.CompleteStep? || step.DeliverCompletion?
    ensures Placed(Apply(s, step))
  {
  }

  lemma FinishPlaced(s: Sys, t: Task, c: Core, co: int)
    requires Shape(s) && Placed(s) && c < Cores(s)
    ensures Placed(FinishEnroll(s, t, c, co))
  {
    FinishKeeps(s, t, c, co);
    SameBut(s, FinishEnroll(s, t, c, co), t);
    hide FinishEnroll;
  }

  lemma EnrollPlaced(s: Sys, t: Task, c: Core, inc: nat, via: Core)
    requires Shape(s) && Placed(s) && c < Cores(s) && t !in s.blocked
    ensures Placed(DoEnroll(s, t, c, inc, via))
  {
    EnrollKeeps(s, t, c, inc, via);
    assert s.blocked - {t} == s.blocked;
    SameBut(s, DoEnroll(s, t, c, inc, via), t);
    hide DoEnroll;
  }

  lemma {:induction false} RunPlaced(s: Sys, steps: seq<Step>, s': Sys)
    requires Placed(s) && Run(s, steps, s')
    ensures Placed(s')
    decreases |steps|
  {
    if steps != [] {
      StepPlaced(s, steps[0]);
      RunPlaced(Apply(s, steps[0]), steps[1..], s');
    }
  }

  // ---------- A holder that waits keeps the phase from ending ----------

  /**
   Task w holds work on core d since before time r, and waits for the end of the phase;
   no core got its work by breaking the rule before time r.
   */
  ghost predicate Stalled(s: Sys, w: Task, d: Core, r: nat) {
    && Inv(s) && Lists(s) && Running(s) && d < Cores(s) && w in s.held[d] && Waits(s, w)
    && s.rank[d] < r <= s.clock
    && (forall x :: 0 <= x < Cores(s) && x in s.rogue && s.locals[x].count > 0 ==> r <= s.rank[x])
  }

  lemma StalledNotLast(s: Sys, w: Task, d: Core, r: nat)
    requires Stalled(s, w, d, r) && Enter in s.net
    ensures !CompletesBarrier(s.locals[MASTER])
  {
    assert |s.held[d]| > 0;
    ChainToCounted(s, d);
    hide Causality, Stages, Lists;
  }

  /** What a step does to the times at which cores got their first work. */
  ghost predicate RanksGrow(s: Sys, s': Sys) {
    && Shape(s) && Shape(s') && Cores(s') == Cores(s) && s.clock <= s'.clock
    && (forall x :: 0 <= x < Cores(s) ==>
          || (s'.rank[x] == s.rank[x] && (s'.locals[x].count > 0 ==> s.locals[x].count > 0))
          || (s.locals[x].count == 0 && s'.rank[x] >= s.clock))
  }

  lemma FinishRanks(s: Sys, t: Task, c: Core, co: int)
    requires Shape(s) && c < Cores(s)
    ensures RanksGrow(s, FinishEnroll(s, t, c, co))
  {
    FinishKeeps(s, t, c, co);
    hide FinishEnroll;
  }

  lemma EnrollRanks(s: Sys, t: Task, c: Core, inc: nat, via: Core)
    requires Shape(s) && Units(s) && c < Cores(s) && t !in s.blocked
    ensures RanksGrow(s, DoEnroll(s, t, c, inc, via))
  {
    EnrollKeeps(s, t, c, inc, via);
    hide DoEnroll;
  }

  lemma CompleteRanks(s: Sys, s1: Sys, d: Core, k: nat)
    requires Shape(s) && Shape(s1) && d < Cores(s) && s1 == s.(held := s1.held, completing := s1.completing)
    ensures RanksGrow(s, CompleteOn(s1, d, k))
  {
  }

  lemma OtherRanks(s: Sys, step: Step)
    requires Shape(s) && Enabled(s, step) && !step.EnrollStep? && !step.DeliverCancelled?
    requires !step.CompleteStep? && !step.DeliverCompletion?
    ensures RanksGrow(s, Apply(s, step))
  {
    match step
    case DeliverProgressAck(t) => AckRanks(s, t);
    case DeliverEnter => MasterRanks(s);
    case DeliverResetAck => MasterRanks(s);
    case DeliverReset(c) => ResetRanks(s, c);
    case WaitStep(t, c) => WaitRanks(s, t, c);
    case _ =>
  }

  lemma AckRanks(s: Sys, t: Task)
    requires Enabled(s, DeliverProgressAck(t))
    ensures RanksGrow(s, DoDeliverProgressAck(s, t))
  {
  }

  lemma MasterRanks(s: Sys)
    requires Shape(s)
    ensures RanksGrow(s, DoDeliverEnter(s)) && RanksGrow(s, DoDeliverResetAck(s))
  {
    MasterKeeps(s);
    hide DoDeliverEnter, DoDeliverResetAck;
  }

  lemma ResetRanks(s: Sys, c: Core)
    requires Shape(s) && c < Cores(s)
    ensures RanksGrow(s, DoDeliverReset(s, c))
  {
  }

  lemma WaitRanks(s: Sys, t: Task, c: Core)
    requires Shape(s) && c < Cores(s)
    ensures RanksGrow(s, DoWait(s, t, c))
  {
  }

  lemma StepRanks(s: Sys, step: Step)
    requires Shape(s) && Units(s) && Enabled(s, step)
    ensures RanksGrow(s, Apply(s, step))
  {
    hide RanksGrow, CompleteOn;
    match step
    case EnrollStep(t, c, inc, via) => EnrollRanks(s, t, c, inc, via);
    case DeliverCancelled(t) => FinishRanks(s, t, s.blocked[t].at, s.blocked[t].co);
    case CompleteStep(t, c, d, k) => CompleteStepRanks(s, t, c, d, k);
    case DeliverCompletion(d, k) => CompleteRanks(s, s.(completing := s.completing[d := s.completing[d] - k]), d, k);
    case _ => OtherRanks(s, step);
  }

  lemma CompleteStepRanks(s: Sys, t: Task, c: Core, d: Core, k: nat)
    requires Enabled(s, CompleteStep(t, c, d, k))
    ensures RanksGrow(s, DoComplete(s, t, c, d, k))
  {
    if c == d {
      hide RanksGrow, CompleteOn;
      CompleteRanks(s, s.(held := s.held[d := s.held[d][t := s.held[d][t] - k]]), d, k);
    }
  }

  /** A blocked task keeps its work. */
  lemma BlockedKeepsWork(s: Sys, step: Step, w: Task, d: Core)
    requires Enabled(s, step) && w in s.blocked && d < Cores(s) && w in s.held[d]
    ensures d < |Apply(s, step).held| && w in Apply(s, step).held[d]
  {
    match step
    case EnrollStep(t, c, inc, via) => EnrollKeepsWork(s, t, c, inc, via, w, d);
    case DeliverCancelled(t) => FinishKeeps(s, t, s.blocked[t].at, s.blocked[t].co);
    case HandOff(t, u, c) =>
    case CompleteStep(t, c, e, k) => CompleteKeepsWork(s, t, c, e, k, w, d);
    case DeliverEnter => MasterKeeps(s);
    case DeliverResetAck => MasterKeeps(s);
    case _ => OtherKeepsWork(s, step);
  }

  lemma EnrollKeepsWork(s: Sys, t: Task, c: Core, inc: nat, via: Core, w: Task, d: Core)
    requires Shape(s) && c < Cores(s) && d < Cores(s) && w in s.held[d] && t !in s.blocked
    ensures d < |DoEnroll(s, t, c, inc, via).held| && w in DoEnroll(s, t, c, inc, via).held[d]
  {
    EnrollKeeps(s, t, c, inc, via);
    hide DoEnroll;
  }

  lemma CompleteKeepsWork(s: Sys, t: Task, c: Core, e: Core, k: nat, w: Task, d: Core)
    requires Enabled(s, CompleteStep(t, c, e, k)) && w in s.blocked && d < Cores(s) && w in s.held[d]
    ensures d < |DoComplete(s, t, c, e, k).held| && w in DoComplete(s, t, c, e, k).held[d]
  {
    var held := s.held[e := s.held[e][t := s.held[e][t] - k]];
    assert DoComplete(s, t, c, e, k).held == held;
    assert w != t && w in held[d];
    hide DoComplete;
  }

  lemma OtherKeepsWork(s: Sys, step: Step)
    requires Enabled(s, step) && !step.EnrollStep? && !step.DeliverCancelled? && !step.HandOff? && !step.CompleteStep?
    requires !step.DeliverEnter? && !step.DeliverResetAck?
    ensures Apply(s, step).held == s.held
  {
  }

  /** Task w is suspended in wait, or waits for the master's answer there. */
  predicate InWait(s: Sys, w: Task) {
    w in s.blocked && (s.blocked[w].OnCv? || s.blocked[w].Probing? || s.blocked[w].Probed?)
  }

  /** Does a step concern task w in wait? */
  predicate MovesWaiter(step: Step, w: Task) {
    step == DeliverProbe(w) || step == DeliverProbed(w) || step.DeliverWake?
  }

  lemma BlockedElsewhere(s: Sys, step: Step, w: Task)
    requires Enabled(s, step) && InWait(s, w) && !MovesWaiter(step, w)
    ensures w in Apply(s, step).blocked && Apply(s, step).blocked[w] == s.blocked[w]
  {
    match step
    case EnrollStep(t, c, inc, via) => EnrollBlocks(s, t, c, inc, via, w);
    case DeliverCancelled(t) => FinishBlocks(s, t, s.blocked[t].at, s.blocked[t].co, w);
    case DeliverProgressAck(t) => AckBlocks(s, t, w);
    case DeliverEnter => MasterKeeps(s);
    case DeliverResetAck => MasterKeeps(s);
    case WaitStep(t, c) => WaitBlocks(s, t, c, w);
    case _ =>
  }

  lemma FinishBlocks(s: Sys, t: Task, c: Core, co: int, w: Task)
    requires Shape(s) && c < Cores(s) && w in s.blocked && w != t
    ensures var s' := FinishEnroll(s, t, c, co); w in s'.blocked && s'.blocked[w] == s.blocked[w]
  {
    FinishKeeps(s, t, c, co);
    SameBut(s, FinishEnroll(s, t, c, co), t);
    hide FinishEnroll;
  }

  lemma EnrollBlocks(s: Sys, t: Task, c: Core, inc: nat, via: Core, w: Task)
    requires Shape(s) && c < Cores(s) && w in s.blocked && t !in s.blocked
    ensures var s' := DoEnroll(s, t, c, inc, via); w in s'.blocked && s'.blocked[w] == s.blocked[w]
  {
    EnrollKeeps(s, t, c, inc, via);
    assert s.blocked - {t} == s.blocked;
    SameBut(s, DoEnroll(s, t, c, inc, via), t);
    hide DoEnroll;
  }

  lemma AckBlocks(s: Sys, t: Task, w: Task)
    requires Enabled(s, DeliverProgressAck(t)) && w in s.blocked && w != t
    ensures var s' := DoDeliverProgressAck(s, t); w in s'.blocked && s'.blocked[w] == s.blocked[w]
  {
  }

  lemma WaitBlocks(s: Sys, t: Task, c: Core, w: Task)
    requires Shape(s) && c < Cores(s) && w in s.blocked && w != t
    ensures var s' := DoWait(s, t, c); w in s'.blocked && s'.blocked[w] == s.blocked[w]
  {
  }

  /** In an open phase no wake is sent, and no waiter captured, without completing the barrier. */
  ghost predicate NoNewWakes(s: Sys, s': Sys) {
    && Shape(s) && Shape(s') && Cores(s') == Cores(s)
    && (forall e :: 0 <= e < Cores(s) ==> Wake(e) in s'.net ==> Wake(e) in s.net)
    && (forall e, u :: 0 <= e < Cores(s) && u in s'.locals[e].waking ==> u in s.locals[e].waking)
  }

  lemma StepNoNewWakes(s: Sys, step: Step)
    requires Shape(s) && Stages(s) && s.stage == Active && Enabled(s, step)
    requires step.DeliverEnter? ==> !CompletesBarrier(s.locals[MASTER])
    ensures NoNewWakes(s, Apply(s, step))
  {
    if !MovesPhase(step) {
      StepSameWakes(s, step);
      hide Stages, Enabled, Apply;
    }
  }

  lemma StillWaits(s: Sys, s': Sys, w: Task)
    requires Waits(s, w) && NoNewWakes(s, s') && w in s'.blocked && s'.blocked[w] == s.blocked[w]
    ensures Waits(s', w)
  {
  }

  lemma ProbeWaits(s: Sys, w: Task)
    requires Shape(s) && Running(s) && Enabled(s, DeliverProbe(w))
    ensures Waits(Apply(s, DeliverProbe(w)), w)
  {
  }

  lemma ProbedWaits(s: Sys, w: Task)
    requires Shape(s) && Lists(s) && Waits(s, w) && Enabled(s, DeliverProbed(w))
    ensures Waits(Apply(s, DeliverProbed(w)), w)
  {
    var s' := Apply(s, DeliverProbed(w));
    forall e | 0 <= e < Cores(s') ensures w !in s'.locals[e].waking {
      assert s'.locals[e].waking == s.locals[e].waking;
    }
  }

  lemma WakeWaits(s: Sys, w: Task, e: Core)
    requires Shape(s) && Lists(s) && Waits(s, w) && Enabled(s, DeliverWake(e))
    ensures Waits(Apply(s, DeliverWake(e)), w)
  {
    var s' := Apply(s, DeliverWake(e));
    assert w !in s.locals[e].waking;
    assert w in s'.blocked && s'.blocked[w] == s.blocked[w];
    forall x | 0 <= x < Cores(s') && w in s'.locals[x].waking ensures w in s.locals[x].waking && Wake(x) !in s'.net {
      assert s'.locals[x].waking == s.locals[x].waking;
    }
  }

  lemma StepWaits(s: Sys, step: Step, w: Task)
    requires Shape(s) && Stages(s) && Lists(s) && Running(s) && Waits(s, w) && Enabled(s, step)
    requires step.DeliverEnter? ==> !CompletesBarrier(s.locals[MASTER])
    ensures Waits(Apply(s, step), w)
  {
    hide Stages, Lists, Waits;
    if step == DeliverProbe(w) {
      ProbeWaits(s, w);
    } else if step == DeliverProbed(w) {
      ProbedWaits(s, w);
    } else if step.DeliverWake? {
      WakeWaits(s, w, step.c);
    } else {
      WaiterInWait(s, w);
      BlockedElsewhere(s, step, w);
      StepNoNewWakes(s, step);
      StillWaits(s, Apply(s, step), w);
    }
  }

  lemma WaiterInWait(s: Sys, w: Task)
    requires Waits(s, w)
    ensures InWait(s, w)
  {
  }

  lemma StaysActive(s: Sys, step: Step)
    requires Shape(s) && Stages(s) && s.stage == Active && Enabled(s, step)
    requires step.DeliverEnter? ==> !CompletesBarrier(s.locals[MASTER])
    ensures Apply(s, step).stage == Active
  {
    match step
    case EnrollStep(t, c, inc, via) => EnrollKeeps(s, t, c, inc, via);
    case DeliverCancelled(t) => FinishKeeps(s, t, s.blocked[t].at, s.blocked[t].co);
    case CompleteStep(t, c, d, k) =>
    case DeliverCompletion(d, k) =>
    case DeliverEnter =>
    case DeliverResetAck => assert false;
    case _ => OtherStage(s, step);
  }

  lemma OtherStage(s: Sys, step: Step)
    requires Enabled(s, step) && !step.EnrollStep? && !step.DeliverCancelled? && !step.DeliverEnter? && !step.DeliverResetAck?
    requires !step.CompleteStep? && !step.DeliverCompletion?
    ensures Apply(s, step).stage == s.stage
  {
  }

  /** Work held by a waiter is not the opener's, so the master knows of the phase. */
  lemma WaiterIsRunning(s: Sys, w: Task, d: Core)
    requires Inv(s) && s.stage == Active && d < Cores(s) && w in s.held[d] && Waits(s, w)
    ensures Running(s)
  {
    OutIsRunning(s);
  }

  lemma StalledRanks(s: Sys, s': Sys, d: Core, r: nat)
    requires RanksGrow(s, s') && s'.rogue == s.rogue && d < Cores(s) && s.locals[d].count > 0 && s.rank[d] < r <= s.clock
    requires forall x :: 0 <= x < Cores(s) && x in s.rogue && s.locals[x].count > 0 ==> r <= s.rank[x]
    ensures s'.rank[d] < r <= s'.clock
    ensures forall x :: 0 <= x < Cores(s') && x in s'.rogue && s'.locals[x].count > 0 ==> r <= s'.rank[x]
  {
  }

  lemma StepStalled(s: Sys, step: Step, w: Task, d: Core, r: nat)
    requires Stalled(s, w, d, r) && Enabled(s, step)
    ensures Stalled(Apply(s, step), w, d, r)
  {
    assert |s.held[d]| > 0 && s.locals[d].count > 0;
    if step.DeliverEnter? { StalledNotLast(s, w, d, r); }
    hide Apply, Enabled, Waits, Units;
    StepLists(s, step);
    StepKeeps(s, step);
    StepLawful(s, step);
    StepRanks(s, step);
    StepWaits(s, step, w);
    StaysActive(s, step);
    StalledRanks(s, Apply(s, step), d, r);
    hide Inv, Lists;
    WaiterInWait(s, w);
    BlockedKeepsWork(s, step, w, d);
    WaiterIsRunning(Apply(s, step), w, d);
  }

  lemma {:induction false} StalledNeverFails(s: Sys, steps: seq<Step>, s': Sys, w: Task, d: Core, r: nat)
    requires Stalled(s, w, d, r) && Run(s, steps, s')
    ensures !s'.failed
    decreases |steps|
  {
    if steps != [] {
      StepStalled(s, steps[0], w, d, r);
      StalledNeverFails(Apply(s, steps[0]), steps[1..], s', w, d, r);
    }
  }

  // ---------- The theorem ----------

  /** An enroll that breaks the rule in a running phase: the first work on a core other than the master. */
  ghost predicate Breaks(s: Sys, t: Task, c: Core, inc: nat, via: Core) {
    && Inv(s) && Lists(s) && Placed(s) && s.rogue == {} && Running(s)
    && c < Cores(s) && t !in s.blocked && inc >= 1 && !MayEnroll(s, t, c, via)
    && forall d :: 0 <= d < Cores(s) ==> t !in s.held[d]
  }

  lemma BreakingEnroll(s: Sys, t: Task, c: Core, inc: nat, via: Core)
    requires Breaks(s, t, c, inc, via)
    ensures var s1 := DoEnroll(s, t, c, inc, via);
      && Inv(s1) && Lists(s1) && 0 < c < Cores(s) && s.locals[c].count == 0 && s1 == Requested(s, t, c, inc, via)
  {
    EnrollInv(s, t, c, inc, via);
    EnrollLeavesLists(s, t, c, inc, via);
    KeepLists(s, DoEnroll(s, t, c, inc, via));
  }

  lemma BreakingDoomed(s: Sys, t: Task, c: Core, inc: nat, via: Core)
    requires Breaks(s, t, c, inc, via) && !HolderWaits(s)
    ensures Doomed(DoEnroll(s, t, c, inc, via), t, c)
  {
    var s1 := DoEnroll(s, t, c, inc, via);
    BreakingEnroll(s, t, c, inc, via);
    EnrollPlaced(s, t, c, inc, via);
    assert |s.held[c]| == 0 && s.completing[c] == 0;
    hide Inv, Lists, DoEnroll;
    BreakingHolders(s, t, c, inc, via);
  }

  lemma BreakingHolders(s: Sys, t: Task, c: Core, inc: nat, via: Core)
    requires Shape(s) && c < Cores(s)
    ensures HolderWaits(Requested(s, t, c, inc, via)) ==> HolderWaits(s)
  {
    var s1 := Requested(s, t, c, inc, via);
    if HolderWaits(s1) {
      var w, d :| 0 <= d < Cores(s1) && w in s1.held[d] && Waits(s1, w);
      assert w != t && w in s.held[d] && s1.blocked[w] == s.blocked[w];
      assert forall e :: 0 <= e < Cores(s) ==> s1.locals[e].waking == s.locals[e].waking;
      assert Waits(s, w);
    }
  }

  lemma BreakingStalled(s: Sys, t: Task, c: Core, inc: nat, via: Core, w: Task, d: Core)
    requires Breaks(s, t, c, inc, via) && d < Cores(s) && w in s.held[d] && Waits(s, w)
    ensures Stalled(DoEnroll(s, t, c, inc, via), w, d, s.clock)
  {
    var s1 := DoEnroll(s, t, c, inc, via);
    BreakingEnroll(s, t, c, inc, via);
    assert |s.held[d]| > 0 && s.locals[d].count > 0 && s.rank[d] < s.clock;
    hide Inv, Lists, DoEnroll;
    assert w != t && d != c && s1.blocked[w] == s.blocked[w];
    assert forall e :: 0 <= e < Cores(s) ==> s1.locals[e].waking == s.locals[e].waking;
  }

  lemma ReachableAll(n: nat, s: Sys)
    requires n >= 1 && Reachable(n, s)
    ensures Inv(s) && Lists(s) && Placed(s) && s.rogue == {}
  {
    ReachableInv(n, s);
    var steps :| Run(InitSys(n), steps, s);
    RunPlaced(InitSys(n), steps, s);
  }

  lemma LawfulNeverFails(s: Sys, t: Task, c: Core, inc: nat, via: Core)
    requires Inv(s) && Lists(s) && s.rogue == {} && c < Cores(s) && t !in s.blocked && inc >= 1 && MayEnroll(s, t, c, via)
    ensures !CanFail(DoEnroll(s, t, c, inc, via))
  {
    var s1 := DoEnroll(s, t, c, inc, via);
    assert Enabled(s, EnrollStep(t, c, inc, via)) && s1 == Apply(s, EnrollStep(t, c, inc, via));
    StepInv(s, EnrollStep(t, c, inc, via));
    hide DoEnroll, Apply, Enabled;
    forall steps, s' | Run(s1, steps, s') ensures !s'.failed {
      RunInv(s1, steps, s');
    }
  }

  /** No task that holds work waits, and none holds work at all, while the master knows of no work. */
  lemma OnlyRunningHolds(s: Sys)
    requires Inv(s) && HolderWaits(s)
    ensures Running(s)
  {
    var w, d :| 0 <= d < Cores(s) && w in s.held[d] && Waits(s, w);
    WaiterIsRunning(s, w, d);
  }

  lemma BreakingIff(s: Sys, t: Task, c: Core, inc: nat, via: Core)
    requires Breaks(s, t, c, inc, via)
    ensures CanFail(DoEnroll(s, t, c, inc, via)) <==> !HolderWaits(s)
  {
    var s1 := DoEnroll(s, t, c, inc, via);
    hide DoEnroll;
    if HolderWaits(s) {
      var w, d :| 0 <= d < Cores(s) && w in s.held[d] && Waits(s, w);
      BreakingStalled(s, t, c, inc, via, w, d);
      forall steps, s' | Run(s1, steps, s') ensures !s'.failed {
        StalledNeverFails(s1, steps, s', w, d, s.clock);
      }
    } else {
      BreakingDoomed(s, t, c, inc, via);
      Overrun(s1, t, c);
    }
  }

  /**
   Exactly which enrolls are safe, in every reachable state, for any task that runs, any
   core and any number of enrollments (`via` is a core where the task holds work, if it
   holds any): some run after it fails a CHECK, if and only if the enroll breaks the rule
   and no task that holds work is waiting for the phase to end.
   */
  lemma EnrollSafeIff(n: nat, s: Sys, t: Task, c: Core, inc: nat, via: Core)
    requires n >= 1 && Reachable(n, s) && Shape(s) && c < Cores(s) && t !in s.blocked && inc >= 1
    requires (exists d :: 0 <= d < Cores(s) && t in s.held[d]) ==> via < Cores(s) && t in s.held[via]
    ensures CanFail(DoEnroll(s, t, c, inc, via)) <==> !MayEnroll(s, t, c, via) && !HolderWaits(s)
  {
    ReachableAll(n, s);
    hide DoEnroll, Lists, Placed, Reachable;
    hide CanFail, Run;
    if MayEnroll(s, t, c, via) {
      LawfulNeverFails(s, t, c, inc, via);
    } else if Running(s) {
      BreakingIff(s, t, c, inc, via);
    } else {
      if HolderWaits(s) { OnlyRunningHolds(s); }
      if s.stage == Active {
        OpeningFails(s, t, c, inc, via);
      } else {
        ResettingCleared(s);
        ResettingFails(s, t, c, inc, via);
      }
    }
  }

  /** Two cores, one phase complete but not yet detected: a first enroll on the other core can fail a CHECK. */
  lemma UncausalEnrollFails()
    ensures exists s, t, steps, s' ::
      && Reachable(2, s) && Shape(s) && Cores(s) == 2 && t !in s.blocked && !MayEnroll(s, t, 1, 0)
      && Run(DoEnroll(s, t, 1, 1, 0), steps, s') && s'.failed
  {
    var t, u := Task(0), Task(1);
    var s := InitOnTwo();
    s := OpenOnTwo(s, t, Quiet(false, [], []), multiset{}, map[]);
    s := CompleteOnTwo(s, t, Quiet(true, [], []), multiset{}, map[]);
    assert !HolderWaits(s) && !MayEnroll(s, u, 1, 0);
    EnrollSafeIff(2, s, u, 1, 1, 0);
    var steps, s' :| Run(DoEnroll(s, u, 1, 1, 0), steps, s') && s'.failed;
  }
}
