/** What steps of the GlobalCompletionEvent protocol do to the open phase, seen from a task that takes part in it. */
module GcePhases {
  import opened Basics
  import opened GceCore
  import opened GceProtocol
  import opened GceSafety
  import opened GceTheorems
  import opened GceWake
  import opened GceOverrun
  import opened GceCausality

  /** The task whose program takes this step; messages are delivered by nobody. */
  function Actor(step: Step): Option<Task> {
    match step
    case EnrollStep(t, _, _, _) => Some(t)
    case HandOff(t, _, _) => Some(t)
    case CompleteStep(t, _, _, _) => Some(t)
    case WaitStep(t, _) => Some(t)
    case _ => None
  }

  /** A phase is completed only when no enrollment is outstanding. */
  lemma StepDetects(s: Sys, step: Step)
    requires Inv(s) && s.rogue == {} && Enabled(s, step)
    ensures s.detected <= Apply(s, step).detected <= s.detected + 1
    ensures Apply(s, step).detected != s.detected ==> AllDone(s) && step.DeliverEnter? && CompletesBarrier(s.locals[MASTER])
  {
    match step
    case EnrollStep(t, c, inc, via) => EnrollKeeps(s, t, c, inc, via);
    case DeliverCancelled(t) => FinishKeeps(s, t, s.blocked[t].at, s.blocked[t].co);
    case DeliverEnter => EntryDetects(s);
    case DeliverResetAck =>
    case CompleteStep(t, c, d, k) =>
    case DeliverCompletion(d, k) =>
    case _ => RestDetects(s, step);
  }

  lemma EntryDetects(s: Sys)
    requires Inv(s) && s.rogue == {} && Enabled(s, DeliverEnter)
    ensures DoDeliverEnter(s).detected == s.detected + if CompletesBarrier(s.locals[MASTER]) then 1 else 0
    ensures CompletesBarrier(s.locals[MASTER]) ==> AllDone(s)
  {
    if CompletesBarrier(s.locals[MASTER]) {
      LastEntryMeansDone(s);
    }
    hide Inv;
  }

  lemma RestDetects(s: Sys, step: Step)
    requires Enabled(s, step) && !step.EnrollStep? && !step.DeliverCancelled? && !step.DeliverEnter? && !step.DeliverResetAck?
    requires !step.CompleteStep? && !step.DeliverCompletion?
    ensures Apply(s, step).detected == s.detected
  {
  }

  /** A task loses enrollments by its own steps only. */
  lemma HeldKept(s: Sys, step: Step, t: Task, d: Core)
    requires Enabled(s, step) && Actor(step) != Some(t) && d < Cores(s)
    ensures d < |Apply(s, step).held| && Apply(s, step).held[d][t] >= s.held[d][t]
  {
    StepShape(s, step);
    match step
    case EnrollStep(u, c, inc, via) => EnrollKeeps(s, u, c, inc, via);
    case DeliverCancelled(u) => FinishKeeps(s, u, s.blocked[u].at, s.blocked[u].co);
    case HandOff(u, w, c) =>
    case CompleteStep(u, c, e, k) => CompleteHeld(s, u, c, e, k);
    case DeliverEnter => MasterKeeps(s);
    case DeliverResetAck => MasterKeeps(s);
    case _ => OtherKeepsWork(s, step);
  }

  lemma CompleteHeld(s: Sys, u: Task, c: Core, e: Core, k: nat)
    requires Enabled(s, CompleteStep(u, c, e, k))
    ensures DoComplete(s, u, c, e, k).held == s.held[e := s.held[e][u := s.held[e][u] - k]]
  {
  }

  /** Once the master knows of a phase, its counter stays positive until the phase is completed. */
  lemma StepRunning(s: Sys, step: Step)
    requires Inv(s) && Running(s) && Enabled(s, step)
    requires step.DeliverEnter? ==> !CompletesBarrier(s.locals[MASTER])
    ensures Shape(Apply(s, step)) && Running(Apply(s, step))
  {
    hide Causality;
    StepShape(s, step);
    StaysActive(s, step);
    hide Counting;
    match step
    case EnrollStep(t, c, inc, via) => EnrollKeeps(s, t, c, inc, via);
    case DeliverCancelled(t) => FinishKeeps(s, t, s.blocked[t].at, s.blocked[t].co);
    case DeliverEnter =>
    case DeliverReset(c) => assert false;
    case DeliverResetAck => assert false;
    case CompleteStep(t, c, d, k) => CompleteRunning(s, t, c, d, k);
    case DeliverCompletion(d, k) => CompleteOnRunning(s.(completing := s.completing[d := s.completing[d] - k]), d, k);
    case WaitStep(t, c) => WaitRunning(s, t, c);
    case DeliverProbed(t) =>
    case _ => RestRunning(s, step);
  }

  lemma CompleteOnRunning(s: Sys, d: Core, k: nat)
    requires Shape(s) && d < Cores(s)
    ensures var s' := CompleteOn(s, d, k); Shape(s') && s'.locals[MASTER].coresOut == s.locals[MASTER].coresOut
  {
  }

  lemma CompleteRunning(s: Sys, t: Task, c: Core, d: Core, k: nat)
    requires Enabled(s, CompleteStep(t, c, d, k))
    ensures var s' := DoComplete(s, t, c, d, k); Shape(s') && s'.locals[MASTER].coresOut == s.locals[MASTER].coresOut
  {
    if c == d {
      hide CompleteOn;
      CompleteOnRunning(s.(held := s.held[d := s.held[d][t := s.held[d][t] - k]]), d, k);
    }
  }

  lemma WaitRunning(s: Sys, t: Task, c: Core)
    requires Shape(s) && c < Cores(s)
    ensures var s' := DoWait(s, t, c); Shape(s') && s'.locals[MASTER].coresOut == s.locals[MASTER].coresOut
  {
  }

  lemma RestRunning(s: Sys, step: Step)
    requires Enabled(s, step) && !step.EnrollStep? && !step.DeliverCancelled? && !step.DeliverEnter? && !step.DeliverResetAck?
    requires !step.CompleteStep? && !step.DeliverCompletion? && !step.DeliverReset? && !step.WaitStep? && !step.DeliverProbed?
    ensures Shape(Apply(s, step)) && Apply(s, step).locals[MASTER].coresOut >= s.locals[MASTER].coresOut
  {
  }

  /** A suspended task remembers the phase it waits for. */
  lemma SinceKept(s: Sys, step: Step, t: Task)
    requires Enabled(s, step) && InWait(s, t) && s.blocked[t].OnCv? && t in s.since
    ensures t in Apply(s, step).since && Apply(s, step).since[t] == s.since[t]
  {
    match step
    case EnrollStep(u, c, inc, via) => EnrollKeeps(s, u, c, inc, via);
    case DeliverCancelled(u) => FinishKeeps(s, u, s.blocked[u].at, s.blocked[u].co);
    case DeliverEnter => MasterKeeps(s);
    case DeliverResetAck => MasterKeeps(s);
    case CompleteStep(u, c, d, k) =>
    case DeliverCompletion(d, k) =>
    case _ => RestSince(s, step, t);
  }

  lemma RestSince(s: Sys, step: Step, t: Task)
    requires Enabled(s, step) && InWait(s, t) && s.blocked[t].OnCv? && t in s.since
    requires !step.EnrollStep? && !step.DeliverCancelled? && !step.DeliverEnter? && !step.DeliverResetAck?
    requires !step.CompleteStep? && !step.DeliverCompletion?
    ensures t in Apply(s, step).since && Apply(s, step).since[t] == s.since[t]
  {
  }

  // ---------- A task that waits for a phase ----------

  /** Task t is in wait for the given phase, or back from it after that phase was completed. */
  ghost predicate WaitsFor(s: Sys, t: Task, phase: nat) {
    && (t !in s.blocked ==> phase <= s.detected)
    && (t in s.blocked ==> InWait(s, t))
    && (t in s.blocked && s.blocked[t].Probed? && s.blocked[t].co <= 0 ==> phase <= s.detected)
    && (t in s.blocked && s.blocked[t].OnCv? ==> t in s.since && phase <= s.since[t])
  }

  /** The phase is not completed yet: it is open, and the master knows of it. */
  ghost predicate UntilDetected(s: Sys, phase: nat) {
    Shape(s) && phase <= s.detected + 1 && (phase == s.detected + 1 ==> Running(s))
  }

  lemma StepUntilDetected(s: Sys, step: Step, phase: nat)
    requires Inv(s) && s.rogue == {} && Enabled(s, step) && UntilDetected(s, phase)
    ensures UntilDetected(Apply(s, step), phase)
  {
    StepDetects(s, step);
    StepShape(s, step);
    hide Apply;
    if phase == s.detected + 1 && Apply(s, step).detected == s.detected {
      if step.DeliverEnter? {
        EntryDetects(s);
        assert Apply(s, step) == DoDeliverEnter(s) by { EntryIs(s); }
      }
      StepRunning(s, step);
    }
  }

  lemma EntryIs(s: Sys)
    requires Enabled(s, DeliverEnter)
    ensures Apply(s, DeliverEnter) == DoDeliverEnter(s)
  {
  }

  /** Calling wait, the task suspends at once, or asks the master, or the phase is completed already. */
  lemma AskWaits(s: Sys, t: Task, c: Core, phase: nat)
    requires UntilDetected(s, phase) && Enabled(s, WaitStep(t, c))
    ensures WaitsFor(Apply(s, WaitStep(t, c)), t, phase)
  {
  }

  lemma StepWaitsFor(s: Sys, step: Step, t: Task, phase: nat)
    requires WakingInv(s) && Enabled(s, step) && Actor(step) != Some(t) && UntilDetected(s, phase) && WaitsFor(s, t, phase)
    ensures WaitsFor(Apply(s, step), t, phase)
  {
    StepDetects(s, step);
    if t !in s.blocked {
      NotBlocked(s, step, t);
      hide Apply;
    } else if step == DeliverProbe(t) || step == DeliverProbed(t) {
      ProbeWaitsFor(s, step, t, phase);
    } else if step.DeliverWake? {
      WakeWaitsFor(s, step.c, t, phase);
    } else {
      BlockedElsewhere(s, step, t);
      if s.blocked[t].OnCv? { SinceKept(s, step, t); }
      hide Apply;
    }
  }

  lemma ProbeWaitsFor(s: Sys, step: Step, t: Task, phase: nat)
    requires Enabled(s, step) && UntilDetected(s, phase) && WaitsFor(s, t, phase)
    requires step == DeliverProbe(t) || step == DeliverProbed(t)
    ensures WaitsFor(Apply(s, step), t, phase)
  {
  }

  lemma WakeWaitsFor(s: Sys, c: Core, t: Task, phase: nat)
    requires WakingInv(s) && Enabled(s, DeliverWake(c)) && WaitsFor(s, t, phase)
    ensures WaitsFor(Apply(s, DeliverWake(c)), t, phase)
  {
    WokenAfterPhase(s, c);
    hide Inv, Lists, ResetsInStep, Wakes, Waiters;
    assert Shape(s);
  }

  /** Nobody but the task itself blocks it. */
  lemma NotBlocked(s: Sys, step: Step, t: Task)
    requires Enabled(s, step) && t !in s.blocked && Actor(step) != Some(t)
    ensures t !in Apply(s, step).blocked
  {
    match step
    case EnrollStep(u, c, inc, via) => EnrollKeeps(s, u, c, inc, via); NotIn(s.blocked, Apply(s, step).blocked, u, t);
    case DeliverCancelled(u) =>
      FinishKeeps(s, u, s.blocked[u].at, s.blocked[u].co);
      NotIn(s.blocked - {u}, Apply(s, step).blocked, u, t);
    case DeliverEnter => MasterKeeps(s);
    case DeliverResetAck => MasterKeeps(s);
    case CompleteStep(u, c, d, k) =>
    case DeliverCompletion(d, k) =>
    case _ => RestNotBlocked(s, step, t);
  }

  lemma NotIn(blocked: map<Task, Block>, blocked': map<Task, Block>, u: Task, t: Task)
    requires blocked' - {u} == blocked && t !in blocked && t != u
    ensures t !in blocked'
  {
    assert t in blocked' ==> t in blocked' - {u};
  }

  lemma RestNotBlocked(s: Sys, step: Step, t: Task)
    requires Enabled(s, step) && t !in s.blocked && Actor(step) != Some(t)
    requires !step.EnrollStep? && !step.DeliverCancelled? && !step.DeliverEnter? && !step.DeliverResetAck?
    requires !step.CompleteStep? && !step.DeliverCompletion?
    ensures t !in Apply(s, step).blocked
  {
  }
}
