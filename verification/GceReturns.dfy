/** Calls that return: an enroll always can, and a task that waits for an open phase is on a list that its end will find. */
module GceReturns {
  import opened Basics
  import opened GceCore
  import opened GceProtocol
  import opened GceRuns
  import opened GceSafety
  import opened GceTheorems
  import opened GceWake
  import opened GceRogue
  import opened GceCausality
  import opened GcePhases
  import opened GceProgress

  // ---------- Enrolls ----------

  /** s' is s with task t back from enroll. */
  ghost predicate Back(s: Sys, s': Sys, t: Task) {
    && t !in s'.blocked && s'.held == s.held && s'.detected == s.detected && Shape(s') && Cores(s') == Cores(s)
  }

  lemma BroadcastBack(s: Sys, t: Task) returns (steps: seq<Step>, s': Sys)
    requires Inv(s) && t in s.blocked && s.blocked[t].Broadcasting?
    ensures Run(s, steps, s') && AllDeliver(steps) && Back(s, s', t)
  {
    assert BroadcastOk(s, t);
    hide Inv;
    steps, s' := Spread(s, t);
    hide Run;
    forall i | 0 <= i < |steps| ensures Actor(steps[i]) == None {
      assert Spreading(steps[i]);
    }
  }

  lemma BackLater(s: Sys, step: Step, s1: Sys, steps: seq<Step>, s': Sys, t: Task)
    requires Enabled(s, step) && Actor(step) == None && s1 == Apply(s, step) && Run(s1, steps, s') && AllDeliver(steps)
    requires s1.held == s.held && s1.detected == s.detected && Cores(s1) == Cores(s) && Back(s1, s', t)
    ensures Run(s, [step] + steps, s') && AllDeliver([step] + steps) && Back(s, s', t)
  {
    hide Enabled, Apply, Run;
    RunCons(s, step, steps, s');
  }

  lemma AnswerStep(s: Sys, t: Task)
    requires Inv(s) && t in s.blocked && s.blocked[t].Cancelled?
    ensures Enabled(s, DeliverCancelled(t))
    ensures var s' := Apply(s, DeliverCancelled(t));
      && s'.held == s.held && s'.detected == s.detected && Shape(s') && Cores(s') == Cores(s)
      && (t in s'.blocked ==> s'.blocked[t].Broadcasting?)
  {
    assert Enabled(s, DeliverCancelled(t));
    FinishKeeps(s, t, s.blocked[t].at, s.blocked[t].co);
    hide Inv, FinishEnroll;
  }

  lemma CancelledBack(s: Sys, t: Task) returns (steps: seq<Step>, s': Sys)
    requires WakingInv(s) && t in s.blocked && s.blocked[t].Cancelled?
    ensures Run(s, steps, s') && AllDeliver(steps) && Back(s, s', t)
  {
    var step := DeliverCancelled(t);
    AnswerStep(s, t);
    var s1 := Apply(s, step);
    WakeStepInv(s, step);
    assert Inv(s1);
    hide WakingInv, Inv, Run, Enabled, Apply;
    if t in s1.blocked {
      steps, s' := BroadcastBack(s1, t);
      BackLater(s, step, s1, steps, s', t);
      steps := [step] + steps;
    } else {
      RunOne(s, step);
      steps, s' := [step], s1;
    }
  }

  lemma RequestStep(s: Sys, t: Task)
    requires Inv(s) && t in s.blocked && s.blocked[t].Cancelling?
    ensures Enabled(s, DeliverCancel(t))
    ensures var s' := Apply(s, DeliverCancel(t));
      && s'.held == s.held && s'.detected == s.detected && Shape(s') && Cores(s') == Cores(s)
      && t in s'.blocked && s'.blocked[t].Cancelled?
  {
    assert IsCancelling(s.blocked, t, s.blocked[t].at) && CancelOk(s, t, s.blocked[t].at);
    hide Inv;
  }

  lemma CancellingBack(s: Sys, t: Task) returns (steps: seq<Step>, s': Sys)
    requires WakingInv(s) && t in s.blocked && s.blocked[t].Cancelling?
    ensures Run(s, steps, s') && AllDeliver(steps) && Back(s, s', t)
  {
    var step := DeliverCancel(t);
    RequestStep(s, t);
    var s1 := Apply(s, step);
    WakeStepInv(s, step);
    hide WakingInv, Run, Enabled, Apply;
    steps, s' := CancelledBack(s1, t);
    BackLater(s, step, s1, steps, s', t);
    steps := [step] + steps;
  }

  /** Delivering its own messages brings a task back from enroll. */
  lemma EnrollReturns(s: Sys, t: Task) returns (steps: seq<Step>, s': Sys)
    requires WakingInv(s) && InEnroll(s.blocked, t)
    ensures Run(s, steps, s') && AllDeliver(steps) && Back(s, s', t)
  {
    match s.blocked[t]
    case Cancelling(_) => steps, s' := CancellingBack(s, t);
    case Cancelled(_, _) => steps, s' := CancelledBack(s, t);
    case Broadcasting(_, _, _) => hide Run; steps, s' := BroadcastBack(s, t);
  }

  /** If task t is blocked, it is in enroll. */
  predicate OnlyEnrolls(s: Sys, t: Task) {
    t in s.blocked ==> s.blocked[t].Cancelling? || s.blocked[t].Cancelled? || s.blocked[t].Broadcasting?
  }

  lemma EnrollLeaves(s: Sys, u: Task, c: Core, inc: nat, via: Core, t: Task)
    requires Shape(s) && c < Cores(s) && u !in s.blocked && OnlyEnrolls(s, t) && t != u
    ensures OnlyEnrolls(DoEnroll(s, u, c, inc, via), t)
  {
    EnrollKeeps(s, u, c, inc, via);
    assert s.blocked - {u} == s.blocked;
    hide DoEnroll;
    SameBut(s, DoEnroll(s, u, c, inc, via), u);
  }

  lemma FinishLeaves(s: Sys, u: Task, c: Core, co: int, t: Task)
    requires Shape(s) && c < Cores(s) && OnlyEnrolls(s, t)
    ensures OnlyEnrolls(FinishEnroll(s, u, c, co), t)
  {
    FinishKeeps(s, u, c, co);
    hide FinishEnroll;
    SameBut(s, FinishEnroll(s, u, c, co), u);
  }

  /** Only its own calls take a task anywhere else. */
  lemma StaysInEnroll(s: Sys, step: Step, t: Task)
    requires Enabled(s, step) && OnlyEnrolls(s, t) && Actor(step) != Some(t)
    ensures OnlyEnrolls(Apply(s, step), t)
  {
    match step
    case EnrollStep(u, c, inc, via) => EnrollLeaves(s, u, c, inc, via, t);
    case DeliverCancelled(u) => FinishLeaves(s, u, s.blocked[u].at, s.blocked[u].co, t);
    case DeliverEnter => MasterKeeps(s); hide DoDeliverEnter;
    case DeliverResetAck => MasterKeeps(s); hide DoDeliverResetAck;
    case CompleteStep(u, c, d, k) =>
    case DeliverCompletion(d, k) =>
    case _ => RestInEnroll(s, step, t);
  }

  lemma RestInEnroll(s: Sys, step: Step, t: Task)
    requires Enabled(s, step) && OnlyEnrolls(s, t) && Actor(step) != Some(t)
    requires !step.EnrollStep? && !step.DeliverCancelled? && !step.DeliverEnter? && !step.DeliverResetAck?
    requires !step.CompleteStep? && !step.DeliverCompletion?
    ensures OnlyEnrolls(Apply(s, step), t)
  {
  }

  // ---------- Waiters ----------

  /** A task that is on no list waited for a phase that is over. */
  ghost predicate LostAreLate(s: Sys) {
    forall t, c :: Lost(s, t, c) ==> t in s.since && s.since[t] <= s.detected
  }

  lemma LostByReset(s: Sys, t: Task, c: Core)
    requires WakingInv(s) && LostAreLate(s) && Enabled(s, DeliverReset(c)) && Lost(Apply(s, DeliverReset(c)), t, c)
    ensures t in s.since && s.since[t] <= s.detected
  {
    var s' := Apply(s, DeliverReset(c));
    assert s'.locals[c].waking == s.locals[c].cv;
    if t in s.locals[c].waking {
      assert s.since[t] <= s.captured[c] <= s.resets[c] <= s.detected;
    } else {
      assert Lost(s, t, c);
    }
  }

  lemma StepLostLate(s: Sys, step: Step)
    requires WakingInv(s) && LostAreLate(s) && Enabled(s, step)
    ensures LostAreLate(Apply(s, step))
  {
    var s' := Apply(s, step);
    StepDetects(s, step);
    forall t, c | Lost(s', t, c) ensures t in s'.since && s'.since[t] <= s'.detected {
      if step == DeliverReset(c) {
        LostByReset(s, t, c);
      } else {
        StepListed(s, step, t, c);
        SinceKept(s, step, t);
      }
    }
    hide WakingInv;
  }

  lemma {:induction false} RunLostLate(s: Sys, steps: seq<Step>, s': Sys)
    requires WakingInv(s) && LostAreLate(s) && Run(s, steps, s')
    ensures LostAreLate(s')
    decreases |steps|
  {
    if steps != [] {
      WakeStepInv(s, steps[0]);
      StepLostLate(s, steps[0]);
      hide WakingInv, LostAreLate, Enabled, Apply;
      RunLostLate(Apply(s, steps[0]), steps[1..], s');
    }
  }

  lemma ReachableLostLate(n: nat, s: Sys)
    requires n >= 1 && Reachable(n, s)
    ensures LostAreLate(s)
  {
    var steps :| Run(InitSys(n), steps, s);
    InitWake(n);
    RunLostLate(InitSys(n), steps, s);
  }

  /** A task that waits for the phase that is open is brought back by its end. */
  lemma OpenPhaseWillReturn(n: nat, s: Sys, t: Task)
    requires n >= 1 && Reachable(n, s) && s.stage == Active && WaitsFor(s, t, s.detected + 1)
    ensures WillReturn(s, t)
  {
    ReachableLostLate(n, s);
    WakeReachableInv(n, s);
    ReachableAll(n, s);
    hide Inv, Reachable;
    if t in s.blocked && s.blocked[t].OnCv? {
      var c := s.blocked[t].at;
      assert !Lost(s, t, c);
    }
  }
}
