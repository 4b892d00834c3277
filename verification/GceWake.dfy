/**
 Waking: who is woken, when, and how often, and exactly when a waiter is lost.

 Phases may overlap in one way: a new phase can open while wake messages of the last
 one are in flight.  A reset that overtakes such a wake replaces the waiter list that
 the wake was for.  The theorems are about every run, with messages delivered in any
 order, unless they say otherwise.
 */
module GceWake {
  import opened Basics
  import opened GceCore
  import opened GceProtocol
  import opened GceSafety
  import opened GceTheorems

  // ---------- Resets, wakes and waiters in every run ----------

  /** Each core has done one reset per completed phase, but for the one in flight. */
  ghost predicate ResetsInStep(s: Sys)
    requires Shape(s)
  {
    forall c :: 0 <= c < Cores(s) ==>
      s.resets[c] + (if Reset(c) in s.net then 1 else 0) == s.detected
  }

  /** Captured waiters have a wake in flight, or their phase is still being reset. */
  ghost predicate Wakes(s: Sys)
    requires Shape(s)
  {
    && (forall c :: 0 <= c < Cores(s) && s.locals[c].waking != [] ==>
          Wake(c) in s.net || (s.stage == Resetting && Reset(c) !in s.net))
    && (forall c :: 0 <= c < Cores(s) ==> 0 <= s.captured[c] <= s.resets[c])
  }

  /** Waiters remember the phase they wait for. */
  ghost predicate Waiters(s: Sys)
    requires Shape(s)
  {
    && (forall c, t :: 0 <= c < Cores(s) && t in s.locals[c].cv ==> t in s.since && s.since[t] <= s.resets[c] + 1)
    && (forall c, t :: 0 <= c < Cores(s) && t in s.locals[c].waking ==> t in s.since && s.since[t] <= s.captured[c])
  }

  lemma KeepWaiters(s: Sys, s': Sys)
    requires SameLists(s, s') && Waiters(s)
    ensures Waiters(s')
  {
    forall c, t | 0 <= c < Cores(s') && t in s'.locals[c].cv ensures t in s'.since && s'.since[t] <= s'.resets[c] + 1 {
      assert t in s.locals[c].cv;
    }
    forall c, t | 0 <= c < Cores(s') && t in s'.locals[c].waking ensures t in s'.since && s'.since[t] <= s'.captured[c] {
      assert t in s.locals[c].waking;
    }
  }

  /** A task that is not suspended is on no list. */
  lemma NotListed(s: Sys, t: Task)
    requires Shape(s) && Lists(s) && (t in s.blocked ==> s.blocked[t].Probed?)
    ensures forall c :: 0 <= c < Cores(s) ==> t !in s.locals[c].cv && t !in s.locals[c].waking
  {
  }

  /** A core is at most one reset behind the phases opened. */
  lemma OpenedBound(s: Sys, c: Core)
    requires Shape(s) && Stages(s) && ResetsInStep(s) && c < Cores(s)
    ensures Opened(s) <= s.resets[c] + 1
  {
  }

  lemma SuspendWaiters(s: Sys, t: Task, c: Core)
    requires Shape(s) && Waiters(s) && c < Cores(s) && Opened(s) <= s.resets[c] + 1
    requires forall d :: 0 <= d < Cores(s) ==> t !in s.locals[d].cv && t !in s.locals[d].waking
    ensures Waiters(SuspendOn(s, t, c))
  {
    var s' := SuspendOn(s, t, c);
    forall d, u | 0 <= d < Cores(s') && u in s'.locals[d].cv ensures u in s'.since && s'.since[u] <= s'.resets[d] + 1 {
      assert (u == t && d == c) || (u in s.locals[d].cv && u != t);
    }
    forall d, u | 0 <= d < Cores(s') && u in s'.locals[d].waking ensures u in s'.since && s'.since[u] <= s'.captured[d] {
      assert u in s.locals[d].waking && u != t;
    }
  }

  lemma ResetWaiters(s: Sys, c: Core)
    requires Shape(s) && Waiters(s) && c < Cores(s)
    ensures Waiters(DoDeliverReset(s, c))
  {
    var s' := DoDeliverReset(s, c);
    forall d, u | 0 <= d < Cores(s') && u in s'.locals[d].cv ensures u in s'.since && s'.since[u] <= s'.resets[d] + 1 {
      assert u in s.locals[d].cv;
    }
    forall d, u | 0 <= d < Cores(s') && u in s'.locals[d].waking ensures u in s'.since && s'.since[u] <= s'.captured[d] {
      assert if d == c then u in s.locals[d].cv else u in s.locals[d].waking;
    }
  }

  lemma WakeWaiters(s: Sys, c: Core)
    requires Shape(s) && Waiters(s) && c < Cores(s)
    ensures Waiters(DoDeliverWake(s, c))
  {
    var s' := DoDeliverWake(s, c);
    forall d, u | 0 <= d < Cores(s') && u in s'.locals[d].cv ensures u in s'.since && s'.since[u] <= s'.resets[d] + 1 {
      assert u in s.locals[d].cv;
    }
    forall d, u | 0 <= d < Cores(s') && u in s'.locals[d].waking ensures u in s'.since && s'.since[u] <= s'.captured[d] {
      assert d != c && u in s.locals[d].waking;
    }
  }

  lemma WaitWaiters(s: Sys, t: Task, c: Core)
    requires Shape(s) && Stages(s) && Lists(s) && ResetsInStep(s) && Waiters(s) && Enabled(s, WaitStep(t, c))
    ensures Waiters(DoWait(s, t, c))
  {
    NotListed(s, t);
    OpenedBound(s, c);
    SuspendWaiters(s, t, c);
    if !s.locals[c].inProgress && c != MASTER {
      KeepWaiters(s, DoWait(s, t, c));
    }
  }

  lemma ProbedWaiters(s: Sys, t: Task)
    requires Shape(s) && Stages(s) && Lists(s) && ResetsInStep(s) && Waiters(s) && Enabled(s, DeliverProbed(t))
    ensures Waiters(DoDeliverProbed(s, t))
  {
    var c := s.blocked[t].at;
    NotListed(s, t);
    OpenedBound(s, c);
    if s.blocked[t].co > 0 {
      SuspendWaiters(s, t, c);
    } else {
      KeepWaiters(s, Unblock(s, t));
    }
  }

  lemma LeaveWaiters(s: Sys, step: Step)
    requires Shape(s) && Waiters(s) && Enabled(s, step) && LeavesLists(step)
    ensures Shape(Apply(s, step)) && Waiters(Apply(s, step))
  {
    StepLeavesLists(s, step);
    KeepWaiters(s, Apply(s, step));
  }

  // -- the bookkeeping of resets and wakes

  /** Nothing about resets and wakes changes; only an opening may move the stage, from idle to active. */
  ghost predicate SameWakes(s: Sys, s': Sys) {
    && Shape(s) && Shape(s') && Cores(s') == Cores(s)
    && s'.resets == s.resets && s'.captured == s.captured && s'.detected == s.detected
    && (s'.stage == Resetting <==> s.stage == Resetting)
    && (forall c: Core :: s'.net[Wake(c)] == s.net[Wake(c)] && s'.net[Reset(c)] == s.net[Reset(c)])
    && (forall c :: 0 <= c < Cores(s) ==> s'.locals[c].waking == s.locals[c].waking)
  }

  lemma KeepWakes(s: Sys, s': Sys)
    requires SameWakes(s, s') && ResetsInStep(s) && Wakes(s)
    ensures ResetsInStep(s') && Wakes(s')
  {
  }

  lemma EnterWakes(s: Sys)
    requires Shape(s) && Stages(s) && ResetsInStep(s) && Wakes(s) && Enabled(s, DeliverEnter)
    ensures ResetsInStep(DoDeliverEnter(s)) && Wakes(DoDeliverEnter(s))
  {
    var s' := DoDeliverEnter(s);
    assert s.stage == Active;
    if CompletesBarrier(s.locals[MASTER]) {
      LastEntryWakes(s);
    } else {
      KeepWakes(s, s');
    }
  }

  lemma LastEntryWakes(s: Sys)
    requires Shape(s) && Stages(s) && ResetsInStep(s) && Wakes(s) && Enabled(s, DeliverEnter) && s.stage == Active
    requires CompletesBarrier(s.locals[MASTER])
    ensures ResetsInStep(DoDeliverEnter(s)) && Wakes(DoDeliverEnter(s))
  {
    var s' := DoDeliverEnter(s);
    forall c: Core ensures s'.net[Wake(c)] == s.net[Wake(c)] && (Reset(c) in s'.net <==> c < Cores(s)) {
      assert Reset(c) !in s.net;
    }
    hide Stages;
  }

  lemma ResetWakes(s: Sys, c: Core)
    requires Shape(s) && Stages(s) && ResetsInStep(s) && Wakes(s)
    requires Enabled(s, DeliverReset(c))
    ensures ResetsInStep(DoDeliverReset(s, c)) && Wakes(DoDeliverReset(s, c))
  {
    assert s.stage == Resetting && s.net[Reset(c)] == 1;
    hide Stages;
    var s' := DoDeliverReset(s, c);
    assert Reset(c) !in s'.net;
  }

  /** The last acknowledgement means that every reset has been delivered. */
  lemma LastAckMeansAllReset(s: Sys)
    requires Shape(s) && Stages(s) && Enabled(s, DeliverResetAck) && s.locals[MASTER].wakingOut == 1
    ensures s.stage == Resetting && forall c :: 0 <= c < Cores(s) ==> Reset(c) !in s.net
  {
    assert s.stage == Resetting;
    assert ToReset(s) == {};
    forall c | 0 <= c < Cores(s) ensures Reset(c) !in s.net {
      assert Reset(c) in s.net ==> c in ToReset(s);
    }
  }

  lemma LastAckWakes(s: Sys)
    requires Shape(s) && ResetsInStep(s) && Wakes(s) && s.stage == Resetting && s.locals[MASTER].wakingOut == 1
    requires forall c :: 0 <= c < Cores(s) ==> Reset(c) !in s.net
    ensures ResetsInStep(DoDeliverResetAck(s)) && Wakes(DoDeliverResetAck(s))
  {
  }

  lemma AckWakes(s: Sys)
    requires Shape(s) && Stages(s) && ResetsInStep(s) && Wakes(s) && Enabled(s, DeliverResetAck)
    ensures ResetsInStep(DoDeliverResetAck(s)) && Wakes(DoDeliverResetAck(s))
  {
    if s.locals[MASTER].wakingOut == 1 {
      LastAckMeansAllReset(s);
      LastAckWakes(s);
    } else {
      KeepWakes(s, DoDeliverResetAck(s));
    }
  }

  lemma WakeWakes(s: Sys, c: Core)
    requires Shape(s) && ResetsInStep(s) && Wakes(s) && Enabled(s, DeliverWake(c))
    ensures ResetsInStep(DoDeliverWake(s, c)) && Wakes(DoDeliverWake(s, c))
  {
  }

  /** Every other step leaves resets and wakes alone. */
  lemma OtherSameWakes(s: Sys, step: Step)
    requires Enabled(s, step)
    requires step.HandOff? || step.DeliverProbe? || step.DeliverProbed? || step.WaitStep?
    ensures SameWakes(s, Apply(s, step))
  {
    match step
    case WaitStep(t, c) => WaitSameWakes(s, t, c);
    case DeliverProbed(t) => ProbedSameWakes(s, t);
    case _ =>
  }

  lemma WaitSameWakes(s: Sys, t: Task, c: Core)
    requires Shape(s) && c < Cores(s)
    ensures SameWakes(s, DoWait(s, t, c))
  {
  }

  lemma ProbedSameWakes(s: Sys, t: Task)
    requires Shape(s) && t in s.blocked && s.blocked[t].Probed? && s.blocked[t].at < Cores(s)
    ensures SameWakes(s, DoDeliverProbed(s, t))
  {
  }

  lemma EnrollSameWakes(s: Sys, t: Task, c: Core, inc: nat, via: Core)
    requires Shape(s) && c < Cores(s) && t !in s.blocked
    ensures SameWakes(s, DoEnroll(s, t, c, inc, via))
  {
    EnrollKeeps(s, t, c, inc, via);
    hide DoEnroll;
  }

  lemma CancelSameWakes(s: Sys, t: Task)
    requires Shape(s) && t in s.blocked && s.blocked[t].at < Cores(s)
    ensures s.blocked[t].Cancelling? ==> SameWakes(s, DoDeliverCancel(s, t))
    ensures s.blocked[t].Cancelled? ==> SameWakes(s, DoDeliverCancelled(s, t))
  {
  }

  lemma ProgressSameWakes(s: Sys, t: Task, d: Core)
    requires Enabled(s, DeliverProgress(t, d))
    ensures SameWakes(s, DoDeliverProgress(s, t, d))
  {
  }

  lemma ProgressAckSameWakes(s: Sys, t: Task)
    requires Enabled(s, DeliverProgressAck(t))
    ensures SameWakes(s, DoDeliverProgressAck(s, t))
  {
  }

  lemma CompleteOnSameWakes(s: Sys, s1: Sys, d: Core, k: nat)
    requires Shape(s) && d < Cores(s) && Shape(s1) && s1 == s.(held := s1.held, completing := s1.completing)
    ensures SameWakes(s, CompleteOn(s1, d, k))
  {
  }

  lemma CompleteSameWakes(s: Sys, t: Task, c: Core, d: Core, k: nat)
    requires Enabled(s, CompleteStep(t, c, d, k))
    ensures SameWakes(s, DoComplete(s, t, c, d, k))
  {
    if c == d {
      hide SameWakes, CompleteOn;
      CompleteOnSameWakes(s, s.(held := s.held[d := s.held[d][t := s.held[d][t] - k]]), d, k);
    } else {
      SentSameWakes(s, s.held[d := s.held[d][t := s.held[d][t] - k]], s.completing[d := s.completing[d] + k]);
    }
  }

  lemma SentSameWakes(s: Sys, held: seq<multiset<Task>>, completing: seq<nat>)
    requires Shape(s) && |held| == |completing| == Cores(s)
    ensures SameWakes(s, s.(held := held, completing := completing))
  {
  }

  lemma CompletionSameWakes(s: Sys, d: Core, k: nat)
    requires Enabled(s, DeliverCompletion(d, k))
    ensures SameWakes(s, DoDeliverCompletion(s, d, k))
  {
  }

  lemma StepSameWakes(s: Sys, step: Step)
    requires Enabled(s, step) && !MovesPhase(step)
    ensures SameWakes(s, Apply(s, step))
  {
    match step
    case EnrollStep(t, c, inc, via) => EnrollSameWakes(s, t, c, inc, via);
    case DeliverCancel(t) => CancelSameWakes(s, t);
    case DeliverCancelled(t) => CancelSameWakes(s, t);
    case DeliverProgress(t, d) => ProgressSameWakes(s, t, d);
    case DeliverProgressAck(t) => ProgressAckSameWakes(s, t);
    case CompleteStep(t, c, d, k) => CompleteSameWakes(s, t, c, d, k);
    case DeliverCompletion(d, k) => CompletionSameWakes(s, d, k);
    case _ => OtherSameWakes(s, step);
  }

  /** The steps that send or receive resets, acknowledgements or wakes. */
  predicate MovesPhase(step: Step) {
    step.DeliverEnter? || step.DeliverReset? || step.DeliverResetAck? || step.DeliverWake?
  }

  lemma OtherWakes(s: Sys, step: Step)
    requires Shape(s) && ResetsInStep(s) && Wakes(s) && Enabled(s, step) && !MovesPhase(step)
    ensures Shape(Apply(s, step)) && ResetsInStep(Apply(s, step)) && Wakes(Apply(s, step))
  {
    StepSameWakes(s, step);
    KeepWakes(s, Apply(s, step));
  }

  lemma MasterWakes(s: Sys, step: Step)
    requires Shape(s) && Stages(s) && ResetsInStep(s) && Wakes(s)
    requires Enabled(s, step) && (step.DeliverEnter? || step.DeliverResetAck?)
    ensures Shape(Apply(s, step)) && ResetsInStep(Apply(s, step)) && Wakes(Apply(s, step))
  {
    hide Stages, ResetsInStep, Wakes;
    if step.DeliverEnter? { EnterWakes(s); } else { AckWakes(s); }
  }

  lemma CoreWakes(s: Sys, step: Step)
    requires Shape(s) && Stages(s) && ResetsInStep(s) && Wakes(s)
    requires Enabled(s, step) && (step.DeliverReset? || step.DeliverWake?)
    ensures Shape(Apply(s, step)) && ResetsInStep(Apply(s, step)) && Wakes(Apply(s, step))
  {
    if step.DeliverReset? { ResetWakes(s, step.c); } else { WakeWakes(s, step.c); }
  }

  lemma StepWakes(s: Sys, step: Step)
    requires Shape(s) && Stages(s) && ResetsInStep(s) && Wakes(s) && Enabled(s, step)
    ensures Shape(Apply(s, step)) && ResetsInStep(Apply(s, step)) && Wakes(Apply(s, step))
  {
    if !MovesPhase(step) {
      OtherWakes(s, step);
    } else if step.DeliverReset? || step.DeliverWake? {
      CoreWakes(s, step);
    } else {
      MasterWakes(s, step);
    }
  }

  lemma WakingWaiters(s: Sys, step: Step)
    requires Shape(s) && Wakes(s) && Waiters(s)
    requires Enabled(s, step) && (step.DeliverReset? || step.DeliverWake?)
    ensures Shape(Apply(s, step)) && Waiters(Apply(s, step))
  {
    if step.DeliverReset? {
      ResetWaiters(s, step.c);
    } else {
      WakeWaiters(s, step.c);
    }
  }

  lemma WaitingWaiters(s: Sys, step: Step)
    requires Shape(s) && Stages(s) && Lists(s) && ResetsInStep(s) && Waiters(s)
    requires Enabled(s, step) && (step.WaitStep? || step.DeliverProbed?)
    ensures Shape(Apply(s, step)) && Waiters(Apply(s, step))
  {
    hide Stages, Lists, ResetsInStep, Waiters;
    if step.WaitStep? { WaitWaiters(s, step.t, step.c); } else { ProbedWaiters(s, step.t); }
  }

  lemma StepWaiters(s: Sys, step: Step)
    requires Shape(s) && Stages(s) && Lists(s) && ResetsInStep(s) && Wakes(s) && Waiters(s)
    requires Enabled(s, step)
    ensures Shape(Apply(s, step)) && Waiters(Apply(s, step))
  {
    if LeavesLists(step) {
      LeaveWaiters(s, step);
    } else if step.DeliverReset? || step.DeliverWake? {
      WakingWaiters(s, step);
    } else {
      WaitingWaiters(s, step);
    }
  }

  /** Everything that holds along every run. */
  ghost predicate WakingInv(s: Sys) {
    Inv(s) && Lists(s) && s.rogue == {} && ResetsInStep(s) && Wakes(s) && Waiters(s)
  }

  lemma WakeStepInv(s: Sys, step: Step)
    requires WakingInv(s) && Enabled(s, step)
    ensures WakingInv(Apply(s, step))
  {
    StepInv(s, step);
    StepWakes(s, step);
    StepWaiters(s, step);
  }

  lemma {:induction false} WakeRunInv(s: Sys, steps: seq<Step>, s': Sys)
    requires WakingInv(s) && Run(s, steps, s')
    ensures WakingInv(s')
    decreases |steps|
  {
    if steps != [] {
      WakeStepInv(s, steps[0]);
      WakeRunInv(Apply(s, steps[0]), steps[1..], s');
    }
  }

  lemma WakeReachableInv(n: nat, s: Sys)
    requires n >= 1 && Reachable(n, s)
    ensures WakingInv(s)
  {
    var steps :| Run(InitSys(n), steps, s);
    InitWake(n);
    hide WakingInv;
    WakeRunInv(InitSys(n), steps, s);
  }

  lemma InitWake(n: nat)
    requires n >= 1
    ensures WakingInv(InitSys(n))
  {
    InitInv(n);
    hide Inv;
  }

  // ---------- Waking ----------

  /** The waiters captured on core c include one of the phase that core d has not been reset for. */
  ghost predicate TooEarly(s: Sys, c: Core, d: Core)
    requires Shape(s) && c < Cores(s)
  {
    Reset(d) in s.net && exists t :: t in s.locals[c].waking && t in s.since && s.since[t] == s.detected
  }

  /**
   A wake makes exactly the captured tasks runnable, each once and for good, and only
   when all work of the phase they waited for is complete (that phase has been detected).
   It comes after every core has been reset for that phase, exactly when it is not too
   early: no core's reset is in flight, or the captured tasks waited for earlier phases.
   */
  lemma WakeSafety(n: nat, s: Sys, c: Core)
    requires n >= 1 && Reachable(n, s) && Enabled(s, DeliverWake(c))
    ensures Shape(s) && NoDup(s.locals[c].waking)
    ensures forall t :: t in s.locals[c].waking ==> t in s.since && s.since[t] <= s.detected
    ensures var s' := Apply(s, DeliverWake(c));
      && (forall t :: t in s.blocked && t !in s'.blocked <==> t in s.locals[c].waking)
      && (forall t, d :: t in s.locals[c].waking && 0 <= d < Cores(s) ==> t !in s'.locals[d].cv && t !in s'.locals[d].waking)
    ensures forall d :: 0 <= d < Cores(s) ==>
      ((forall t :: t in s.locals[c].waking ==> t in s.since && s.since[t] <= s.resets[d]) <==> !TooEarly(s, c, d))
  {
    WakeReachableInv(n, s);
    WokenAfterPhase(s, c);
    WokenOnce(s, c);
  }

  lemma WokenAfterPhase(s: Sys, c: Core)
    requires Shape(s) && ResetsInStep(s) && Wakes(s) && Waiters(s) && c < Cores(s)
    ensures forall t :: t in s.locals[c].waking ==> t in s.since && s.since[t] <= s.detected
    ensures forall d :: 0 <= d < Cores(s) ==>
      ((forall t :: t in s.locals[c].waking ==> t in s.since && s.since[t] <= s.resets[d]) <==> !TooEarly(s, c, d))
  {
    forall t | t in s.locals[c].waking ensures t in s.since && s.since[t] <= s.detected {
      assert s.since[t] <= s.captured[c] <= s.resets[c] <= s.detected;
    }
  }

  lemma WokenOnce(s: Sys, c: Core)
    requires Shape(s) && Lists(s) && Enabled(s, DeliverWake(c))
    ensures NoDup(s.locals[c].waking)
    ensures var s' := DoDeliverWake(s, c);
      && (forall t :: t in s.blocked && t !in s'.blocked <==> t in s.locals[c].waking)
      && (forall t, d :: t in s.locals[c].waking && 0 <= d < Cores(s) ==> t !in s'.locals[d].cv && t !in s'.locals[d].waking)
  {
    var cv, waking := s.locals[c].cv, s.locals[c].waking;
    ListsDisjoint(cv, waking);
    assert (cv + waking)[|cv|..] == waking;
    var s' := DoDeliverWake(s, c);
    forall t, d | t in waking && 0 <= d < Cores(s)
      ensures t !in s'.locals[d].cv && t !in s'.locals[d].waking
    {
      assert s.blocked[t] == OnCv(c);
      if d == c { assert t !in cv; }
    }
  }

  /** Nobody is stranded between the two phases of waking: with the resets and wakes delivered, no list is left. */
  lemma WakesDrain(n: nat, s: Sys, c: Core)
    requires n >= 1 && Reachable(n, s) && c < Cores(s) && s.stage != Resetting && Wake(c) !in s.net
    ensures s.locals[c].waking == []
  {
    WakeReachableInv(n, s);
  }

  // ---------- Losing a waiter ----------

  predicate Listed(s: Sys, t: Task, c: Core) {
    c < Cores(s) && (t in s.locals[c].cv || t in s.locals[c].waking)
  }

  /** A task suspended on core c that is on none of its lists: no wake will find it. */
  predicate Lost(s: Sys, t: Task, c: Core) {
    t in s.blocked && s.blocked[t] == OnCv(c) && !Listed(s, t, c)
  }

  ghost predicate NobodyLost(s: Sys, c: Core) {
    forall t :: !Lost(s, t, c)
  }

  /** Every reset of core c along the run finds that the last captured waiters have been woken. */
  ghost predicate Clean(s: Sys, steps: seq<Step>, c: Core)
    decreases |steps|
  {
    steps == [] ||
    (Enabled(s, steps[0]) && (steps[0] == DeliverReset(c) ==> s.locals[c].waking == [])
      && Clean(Apply(s, steps[0]), steps[1..], c))
  }

  /** A reset takes every waiter along, unless it finds captured ones. */
  lemma ResetListed(s: Sys, t: Task, c: Core, d: Core)
    requires Shape(s) && Lists(s) && Enabled(s, DeliverReset(d)) && d < Cores(s)
    requires d == c ==> s.locals[c].waking == []
    ensures Lost(Apply(s, DeliverReset(d)), t, c) ==> Lost(s, t, c)
  {
    var s' := Apply(s, DeliverReset(d));
    assert s'.locals[d].waking == s.locals[d].cv;
  }

  lemma WakeListed(s: Sys, t: Task, c: Core, d: Core)
    requires Shape(s) && Lists(s) && Enabled(s, DeliverWake(d)) && d < Cores(s)
    ensures Lost(Apply(s, DeliverWake(d)), t, c) <==> Lost(s, t, c)
  {
    var s' := Apply(s, DeliverWake(d));
    if t in s.locals[d].waking {
      assert t in s.blocked && s.blocked[t] == OnCv(d);
      assert t !in s'.blocked;
    }
  }

  lemma SuspendListed(s: Sys, u: Task, t: Task, c: Core, d: Core)
    requires Shape(s) && Lists(s) && d < Cores(s) && (u in s.blocked ==> s.blocked[u].Probed?)
    ensures Lost(SuspendOn(s, u, d), t, c) <==> Lost(s, t, c)
  {
    var s' := SuspendOn(s, u, d);
    assert s'.locals[d].cv[0] == u;
    assert forall x :: x in s.locals[d].cv ==> x in s'.locals[d].cv;
    assert forall x :: x in s'.locals[d].cv ==> x == u || x in s.locals[d].cv;
  }

  lemma SameListsLost(s: Sys, s': Sys, t: Task, c: Core)
    requires SameLists(s, s')
    ensures Lost(s', t, c) <==> Lost(s, t, c)
  {
  }

  lemma WaitListed(s: Sys, step: Step, t: Task, c: Core)
    requires Shape(s) && Lists(s) && Enabled(s, step) && (step.WaitStep? || step.DeliverProbed?)
    ensures Lost(Apply(s, step), t, c) <==> Lost(s, t, c)
  {
    hide Lists, Lost, SuspendOn;
    match step
    case WaitStep(u, d) =>
      if s.locals[d].inProgress || (d == MASTER && s.locals[MASTER].coresOut > 0) {
        SuspendListed(s, u, t, c, d);
      } else {
        ProbeLeavesLists(s, u, d);
        SameListsLost(s, DoWait(s, u, d), t, c);
      }
    case DeliverProbed(u) =>
      if s.blocked[u].co > 0 {
        SuspendListed(s, u, t, c, s.blocked[u].at);
      } else {
        SameListsLost(s, Unblock(s, u), t, c);
      }
  }

  lemma ProbeLeavesLists(s: Sys, u: Task, d: Core)
    requires Shape(s) && d < Cores(s) && u !in s.blocked
    requires !s.locals[d].inProgress && !(d == MASTER && s.locals[MASTER].coresOut > 0)
    ensures SameLists(s, DoWait(s, u, d))
  {
  }

  /** Only a reset that finds captured waiters loses anybody. */
  lemma StepListed(s: Sys, step: Step, t: Task, c: Core)
    requires Shape(s) && Lists(s) && Enabled(s, step) && (step == DeliverReset(c) ==> s.locals[c].waking == [])
    ensures Lost(Apply(s, step), t, c) ==> Lost(s, t, c)
  {
    hide Lists, Lost;
    match step
    case DeliverReset(d) => ResetListed(s, t, c, d);
    case DeliverWake(d) => WakeListed(s, t, c, d);
    case WaitStep(u, d) => WaitListed(s, step, t, c);
    case DeliverProbed(u) => WaitListed(s, step, t, c);
    case _ =>
      StepLeavesLists(s, step);
      SameListsLost(s, Apply(s, step), t, c);
  }

  lemma StaysLostReset(s: Sys, t: Task, c: Core, d: Core)
    requires Shape(s) && Lists(s) && Enabled(s, DeliverReset(d)) && d < Cores(s) && Lost(s, t, c)
    ensures Lost(Apply(s, DeliverReset(d)), t, c)
  {
    assert d == c ==> Apply(s, DeliverReset(d)).locals[c].waking == s.locals[c].cv;
  }

  /** A lost task stays lost. */
  lemma StepStaysLost(s: Sys, step: Step, t: Task, c: Core)
    requires Shape(s) && Lists(s) && Enabled(s, step) && Lost(s, t, c)
    ensures Lost(Apply(s, step), t, c)
  {
    hide Lists, Lost;
    match step
    case DeliverReset(d) => StaysLostReset(s, t, c, d);
    case DeliverWake(d) => WakeListed(s, t, c, d);
    case WaitStep(u, d) => WaitListed(s, step, t, c);
    case DeliverProbed(u) => WaitListed(s, step, t, c);
    case _ =>
      StepLeavesLists(s, step);
      SameListsLost(s, Apply(s, step), t, c);
  }

  lemma {:induction false} LostForever(s: Sys, steps: seq<Step>, s': Sys, t: Task, c: Core)
    requires Shape(s) && Lists(s) && Run(s, steps, s') && Lost(s, t, c)
    ensures Lost(s', t, c)
    decreases |steps|
  {
    if steps != [] {
      StepLists(s, steps[0]);
      StepStaysLost(s, steps[0], t, c);
      LostForever(Apply(s, steps[0]), steps[1..], s', t, c);
    }
  }

  /** A reset that finds captured waiters loses the first of them. */
  lemma ResetLoses(s: Sys, c: Core)
    requires Shape(s) && Lists(s) && Enabled(s, DeliverReset(c)) && s.locals[c].waking != []
    ensures Lost(Apply(s, DeliverReset(c)), s.locals[c].waking[0], c)
  {
    var t := s.locals[c].waking[0];
    ListsDisjoint(s.locals[c].cv, s.locals[c].waking);
    assert t in s.locals[c].waking && t !in s.locals[c].cv;
  }

  lemma {:induction false} LostIffUnclean(s: Sys, steps: seq<Step>, s': Sys, c: Core)
    requires Shape(s) && Lists(s) && Run(s, steps, s') && NobodyLost(s, c)
    ensures NobodyLost(s', c) <==> Clean(s, steps, c)
    decreases |steps|
  {
    if steps != [] {
      var s1 := Apply(s, steps[0]);
      StepLists(s, steps[0]);
      if steps[0] == DeliverReset(c) && s.locals[c].waking != [] {
        ResetLoses(s, c);
        LostForever(s1, steps[1..], s', s.locals[c].waking[0], c);
      } else {
        forall t ensures !Lost(s1, t, c) {
          StepListed(s, steps[0], t, c);
        }
        LostIffUnclean(s1, steps[1..], s', c);
      }
    }
  }

  /**
   Over a whole run, with messages in any order: everybody suspended on a core is on one
   of its lists, if and only if every reset of that core found its last captured waiters
   woken.
   */
  lemma NobodyLostIff(n: nat, steps: seq<Step>, s: Sys, c: Core)
    requires n >= 1 && Run(InitSys(n), steps, s)
    ensures (forall t :: t in s.blocked && s.blocked[t] == OnCv(c) ==> Listed(s, t, c)) <==> Clean(InitSys(n), steps, c)
  {
    InitInv(n);
    LostIffUnclean(InitSys(n), steps, s, c);
    hide Inv, Lists, Clean, Run;
    LostIffUnlisted(s, c);
  }

  lemma LostIffUnlisted(s: Sys, c: Core)
    ensures NobodyLost(s, c) <==> forall t :: t in s.blocked && s.blocked[t] == OnCv(c) ==> Listed(s, t, c)
  {
    if NobodyLost(s, c) {
      forall t | t in s.blocked && s.blocked[t] == OnCv(c) ensures Listed(s, t, c) {
        assert !Lost(s, t, c);
      }
    } else {
      var t :| Lost(s, t, c);
      assert t in s.blocked && s.blocked[t] == OnCv(c) && !Listed(s, t, c);
    }
  }

  /**
   After a run without such a loss, a reset that finds no captured waiters moves exactly
   the tasks suspended on its core to the waking list; none is dropped, and each keeps
   its one place.
   */
  lemma ResetCapturesWaiters(n: nat, steps: seq<Step>, s: Sys, c: Core)
    requires n >= 1 && Run(InitSys(n), steps, s) && Clean(InitSys(n), steps, c)
    requires Enabled(s, DeliverReset(c)) && s.locals[c].waking == []
    ensures var s' := Apply(s, DeliverReset(c));
      && s'.locals[c].waking == s.locals[c].cv && s'.locals[c].cv == []
      && NoDup(s'.locals[c].waking)
      && (forall t :: t in s.blocked && s.blocked[t] == OnCv(c) <==> t in s'.locals[c].waking)
  {
    hide Run, Clean, Lists;
    NobodyLostIff(n, steps, s, c);
    assert Reachable(n, s);
    ReachableInv(n, s);
    hide Inv, Reachable;
    CapturedAreSuspended(s, c);
  }

  lemma CapturedAreSuspended(s: Sys, c: Core)
    requires Shape(s) && Lists(s) && c < Cores(s) && s.locals[c].waking == []
    requires forall t :: t in s.blocked && s.blocked[t] == OnCv(c) ==> Listed(s, t, c)
    ensures NoDup(s.locals[c].cv)
    ensures forall t :: t in s.blocked && s.blocked[t] == OnCv(c) <==> t in s.locals[c].cv
  {
    assert s.locals[c].cv + s.locals[c].waking == s.locals[c].cv;
    forall t | t in s.blocked && s.blocked[t] == OnCv(c) ensures t in s.locals[c].cv {
      assert Listed(s, t, c);
    }
  }

  // ---------- A network that keeps resets behind wakes ----------

  /** A reset is delivered to a core only after every earlier wake to it. */
  predicate InOrder(s: Sys, step: Step) {
    step.DeliverReset? ==> Wake(step.c) !in s.net
  }

  ghost predicate OrderedRun(s: Sys, steps: seq<Step>, s': Sys)
    decreases |steps|
  {
    if steps == [] then s' == s
    else Enabled(s, steps[0]) && InOrder(s, steps[0]) && OrderedRun(Apply(s, steps[0]), steps[1..], s')
  }

  /** While the cores are being reset, a wake in flight is behind that core's reset. */
  ghost predicate WakesFirst(s: Sys) {
    forall c :: 0 <= c < Cores(s) && s.stage == Resetting && Wake(c) in s.net ==> Reset(c) in s.net
  }

  lemma StepWakesFirst(s: Sys, step: Step)
    requires Shape(s) && Stages(s) && WakesFirst(s) && Enabled(s, step) && InOrder(s, step)
    ensures WakesFirst(Apply(s, step))
  {
    if !MovesPhase(step) {
      StepSameWakes(s, step);
      hide Stages, Enabled, Apply;
    } else {
      MoveWakesFirst(s, step);
    }
  }

  lemma MoveWakesFirst(s: Sys, step: Step)
    requires Shape(s) && Stages(s) && WakesFirst(s) && Enabled(s, step) && InOrder(s, step) && MovesPhase(step)
    ensures WakesFirst(Apply(s, step))
  {
    match step
    case DeliverEnter => EnterWakesFirst(s);
    case DeliverReset(c) => ResetWakesFirst(s, c);
    case DeliverWake(c) =>
    case DeliverResetAck => AckWakesFirst(s);
  }

  lemma EnterWakesFirst(s: Sys)
    requires Shape(s) && Stages(s) && Enabled(s, DeliverEnter)
    ensures WakesFirst(DoDeliverEnter(s))
  {
    assert s.stage == Active;
    hide Stages;
  }

  lemma ResetWakesFirst(s: Sys, c: Core)
    requires Shape(s) && WakesFirst(s) && Enabled(s, DeliverReset(c)) && InOrder(s, DeliverReset(c))
    ensures WakesFirst(DoDeliverReset(s, c))
  {
  }

  lemma AckWakesFirst(s: Sys)
    requires Shape(s) && WakesFirst(s) && Enabled(s, DeliverResetAck)
    ensures WakesFirst(DoDeliverResetAck(s))
  {
  }

  /** In order, a reset finds the core's captured waiters already woken. */
  lemma ResetFindsNoneWaking(s: Sys, c: Core)
    requires Shape(s) && Wakes(s) && Enabled(s, DeliverReset(c)) && InOrder(s, DeliverReset(c))
    ensures s.locals[c].waking == []
  {
  }

  lemma {:induction false} OrderedRunClean(s: Sys, steps: seq<Step>, s': Sys, c: Core)
    requires WakingInv(s) && WakesFirst(s) && OrderedRun(s, steps, s') && c < Cores(s)
    ensures Run(s, steps, s') && Clean(s, steps, c) && WakingInv(s') && WakesFirst(s')
    decreases |steps|
  {
    if steps != [] {
      WakeStepInv(s, steps[0]);
      StepWakesFirst(s, steps[0]);
      StepShape(s, steps[0]);
      if steps[0] == DeliverReset(c) {
        ResetFindsNoneWaking(s, c);
      }
      hide WakingInv, WakesFirst, Enabled, Apply;
      OrderedRunClean(Apply(s, steps[0]), steps[1..], s', c);
    }
  }

  lemma InitOrdered(n: nat)
    requires n >= 1
    ensures WakingInv(InitSys(n)) && WakesFirst(InitSys(n)) && Cores(InitSys(n)) == n
  {
    InitWake(n);
    hide WakingInv;
  }

  lemma WakingShape(s: Sys)
    requires WakingInv(s)
    ensures Shape(s) && Lists(s)
  {
    hide Lists, Wakes, Waiters, ResetsInStep;
  }

  lemma OrderedCores(n: nat, steps: seq<Step>, s: Sys)
    requires n >= 1 && Run(InitSys(n), steps, s) && WakingInv(s)
    ensures Shape(s) && Cores(s) == n
  {
    InitOrdered(n);
    hide WakingInv, InitSys, Run;
    WakingShape(InitSys(n));
    WakingShape(s);
    hide Lists;
    RunCores(InitSys(n), steps, s);
  }

  lemma OrderedNotTooEarly(s: Sys, c: Core)
    requires WakingInv(s) && WakesFirst(s) && Shape(s) && c < Cores(s) && Wake(c) in s.net
    ensures forall d :: 0 <= d < Cores(s) ==> !TooEarly(s, c, d)
  {
    hide Lists;
    NotTooEarly(s, c);
    hide Inv, Wakes, Waiters, ResetsInStep, WakesFirst, TooEarly;
  }

  /** If no reset overtakes an earlier wake to the same core, nobody is lost and no wake comes too early. */
  lemma OrderLosesNobody(n: nat, steps: seq<Step>, s: Sys, c: Core)
    requires n >= 1 && OrderedRun(InitSys(n), steps, s) && c < n
    ensures forall t :: t in s.blocked && s.blocked[t] == OnCv(c) ==> Listed(s, t, c)
    ensures Shape(s) && c < Cores(s) && forall d :: 0 <= d < Cores(s) && Wake(c) in s.net ==> !TooEarly(s, c, d)
  {
    InitOrdered(n);
    hide WakingInv, WakesFirst, Run, OrderedRun, Clean, InitSys;
    OrderedRunClean(InitSys(n), steps, s, c);
    OrderedCores(n, steps, s);
    NobodyLostIff(n, steps, s, c);
    if Wake(c) in s.net {
      OrderedNotTooEarly(s, c);
    }
  }

  lemma NotTooEarly(s: Sys, c: Core)
    requires Shape(s) && Stages(s) && ResetsInStep(s) && Wakes(s) && Waiters(s) && WakesFirst(s) && c < Cores(s)
    requires Wake(c) in s.net
    ensures forall d :: 0 <= d < Cores(s) ==> !TooEarly(s, c, d)
  {
    forall d, t | 0 <= d < Cores(s) && Reset(d) in s.net && t in s.locals[c].waking
      ensures t in s.since && s.since[t] < s.detected
    {
      assert s.stage == Resetting && Reset(c) in s.net;
      assert s.since[t] <= s.captured[c] <= s.resets[c] < s.detected;
    }
  }

  lemma {:induction false} RunCores(s: Sys, steps: seq<Step>, s': Sys)
    requires Shape(s) && Lists(s) && Run(s, steps, s')
    ensures Cores(s') == Cores(s)
    decreases |steps|
  {
    if steps != [] {
      StepLists(s, steps[0]);
      StepShape(s, steps[0]);
      RunCores(Apply(s, steps[0]), steps[1..], s');
    }
  }

  lemma ReachableCores(n: nat, s: Sys)
    requires n >= 1 && Reachable(n, s)
    ensures Cores(s) == n
  {
    var steps :| Run(InitSys(n), steps, s);
    InitInv(n);
    RunCores(InitSys(n), steps, s);
  }
}
