/**
 What the rule for enrolling keeps away in a running phase: an enroll that breaks it on a
 core without work can be overtaken by the end of the phase, unless a task that holds
 work is itself waiting for that end.
 */
module GceOverrun {
  import opened Basics
  import opened GceCore
  import opened GceProtocol
  import opened GceRuns
  import opened GceSafety
  import opened GceTheorems
  import opened GceRogue

  /** Task w is in wait, and only the end of the phase will bring it back. */
  predicate Waits(s: Sys, w: Task) {
    w in s.blocked &&
    match s.blocked[w]
    case OnCv(_) => forall e :: 0 <= e < Cores(s) && w in s.locals[e].waking ==> Wake(e) !in s.net
    case Probing(_) => true
    case Probed(_, co) => co > 0
    case _ => false
  }

  ghost predicate HolderWaits(s: Sys)
    requires Shape(s)
  {
    exists w, d :: 0 <= d < Cores(s) && w in s.held[d] && Waits(s, w)
  }

  /** Every blocked task is on some core. */
  ghost predicate Placed(s: Sys) {
    forall t :: t in s.blocked ==> s.blocked[t].at < Cores(s)
  }

  // ---------- Steps that only let tasks go on ----------

  /** From s to s' blocked tasks only move towards their return, and work is only given up. */
  ghost predicate Frees(s: Sys, s': Sys) {
    && Shape(s) && Shape(s') && Cores(s') == Cores(s) && s'.stage == s.stage
    && (s'.opener == s.opener || s'.opener == None)
    && (forall d :: 0 <= d < Cores(s) ==> s'.held[d] <= s.held[d] && s'.completing[d] <= s.completing[d])
    && (forall w :: w in s'.blocked ==>
          w in s.blocked && (s'.blocked[w] == s.blocked[w] || s'.blocked[w].Cancelled? || s'.blocked[w].Broadcasting?))
    && (forall e :: 0 <= e < Cores(s) ==>
          || (s'.locals[e].waking == s.locals[e].waking && (Wake(e) in s.net ==> Wake(e) in s'.net))
          || (s'.locals[e].waking == [] && forall w :: w in s.locals[e].waking ==> w !in s'.blocked))
  }

  lemma FreesWaits(s: Sys, s': Sys, w: Task)
    requires Frees(s, s') && Waits(s', w)
    ensures Waits(s, w)
  {
    assert s'.blocked[w] == s.blocked[w];
  }

  lemma FreesHolders(s: Sys, s': Sys)
    requires Frees(s, s')
    ensures HolderWaits(s') ==> HolderWaits(s)
  {
    if HolderWaits(s') {
      var w, d :| 0 <= d < Cores(s') && w in s'.held[d] && Waits(s', w);
      FreesWaits(s, s', w);
      assert w in s.held[d];
    }
  }

  /**
   Task t, alone on core c, has enrolled there without the rule; its request is in flight,
   and nobody who holds work is waiting for the end of the phase.
   */
  ghost predicate Doomed(s: Sys, t: Task, c: Core) {
    && Inv(s) && Lists(s) && Running(s) && Placed(s) && 0 < c < Cores(s) && IsCancelling(s.blocked, t, c)
    && (forall u :: u in s.held[c] ==> u == t) && s.completing[c] == 0
    && (forall d :: 0 <= d < Cores(s) && d != c ==> t !in s.held[d])
    && !HolderWaits(s)
  }

  lemma FreesRunning(s: Sys, s': Sys)
    requires Inv(s) && Running(s) && Frees(s, s') && Inv(s')
    ensures Running(s')
  {
    OutIsRunning(s);
    OutIsRunning(s');
  }

  lemma StaysDoomed(s: Sys, s': Sys, t: Task, c: Core)
    requires Doomed(s, t, c) && Frees(s, s') && Inv(s') && Lists(s') && IsCancelling(s'.blocked, t, c)
    ensures Doomed(s', t, c)
  {
    hide Lists;
    FreesRunning(s, s');
    FreesHolders(s, s');
    hide Inv, HolderWaits;
    CancelledPlaced(s, s');
  }

  lemma CancelledPlaced(s: Sys, s': Sys)
    requires Inv(s') && Placed(s) && Frees(s, s')
    ensures Placed(s')
  {
  }

  lemma DoomedStep(s: Sys, step: Step, t: Task, c: Core)
    requires Doomed(s, t, c) && Enabled(s, step) && !step.DeliverEnter? && Frees(s, Apply(s, step))
    requires IsCancelling(Apply(s, step).blocked, t, c)
    ensures Doomed(Apply(s, step), t, c)
  {
    StepLists(s, step);
    StepKeeps(s, step);
    hide Inv, Lists, Apply, Enabled, Frees;
    StaysDoomed(s, Apply(s, step), t, c);
  }

  // ---------- Getting a task that holds work to run ----------

  lemma CancelFrees(s: Sys, u: Task)
    requires Enabled(s, DeliverCancel(u))
    ensures Frees(s, DoDeliverCancel(s, u)) && DoDeliverCancel(s, u).blocked[u].Cancelled?
    ensures DoDeliverCancel(s, u).held == s.held && DoDeliverCancel(s, u).completing == s.completing
  {
  }

  lemma FinishFrees(s: Sys, u: Task)
    requires Enabled(s, DeliverCancelled(u))
    ensures var s' := DoDeliverCancelled(s, u);
      Frees(s, s') && s'.held == s.held && s'.completing == s.completing && (u in s'.blocked ==> s'.blocked[u].Broadcasting?)
  {
    hide CoreSet;
  }

  lemma ProbedFrees(s: Sys, u: Task)
    requires Enabled(s, DeliverProbed(u)) && s.blocked[u].co <= 0
    ensures var s' := DoDeliverProbed(s, u);
      Frees(s, s') && s'.held == s.held && s'.completing == s.completing && u !in s'.blocked
  {
  }

  lemma WakeFrees(s: Sys, e: Core)
    requires Enabled(s, DeliverWake(e))
    ensures var s' := DoDeliverWake(s, e);
      && Frees(s, s') && s'.held == s.held && s'.completing == s.completing
      && forall w :: w in s.locals[e].waking ==> w !in s'.blocked
  {
  }

  lemma SpreadFrees(s: Sys, s': Sys, u: Task)
    requires Spreads(s, s', u)
    ensures Frees(s, s') && s'.held == s.held && s'.completing == s.completing && u !in s'.blocked
  {
  }

  lemma {:induction false} SpreadingInv(s: Sys, steps: seq<Step>, s': Sys)
    requires Inv(s) && Lists(s) && Run(s, steps, s') && forall i :: 0 <= i < |steps| ==> Spreading(steps[i])
    ensures Inv(s') && Lists(s')
    decreases |steps|
  {
    if steps != [] {
      StepLists(s, steps[0]);
      StepKeeps(s, steps[0]);
      hide Inv, Lists;
      SpreadingInv(Apply(s, steps[0]), steps[1..], s');
    }
  }

  /** s' is reached from s, doomed in the same way and with the same work, and task u is running. */
  ghost predicate Released(s: Sys, steps: seq<Step>, s': Sys, t: Task, c: Core, u: Task) {
    && Run(s, steps, s') && Doomed(s', t, c) && u !in s'.blocked
    && s'.held == s.held && s'.completing == s.completing
  }

  lemma ReleasedLater(s: Sys, step: Step, steps: seq<Step>, s': Sys, t: Task, c: Core, u: Task)
    requires Enabled(s, step) && Released(Apply(s, step), steps, s', t, c, u)
    requires Apply(s, step).held == s.held && Apply(s, step).completing == s.completing
    ensures Released(s, [step] + steps, s', t, c, u)
  {
    RunCons(s, step, steps, s');
  }

  lemma ReleasedAtOnce(s: Sys, step: Step, t: Task, c: Core, u: Task)
    requires Enabled(s, step) && Doomed(Apply(s, step), t, c) && u !in Apply(s, step).blocked
    requires Apply(s, step).held == s.held && Apply(s, step).completing == s.completing
    ensures Released(s, [step], Apply(s, step), t, c, u)
  {
    RunOne(s, step);
  }

  lemma ReleaseBroadcasting(s: Sys, t: Task, c: Core, u: Task) returns (steps: seq<Step>, s': Sys)
    requires Doomed(s, t, c) && u in s.blocked && s.blocked[u].Broadcasting?
    ensures Released(s, steps, s', t, c, u)
  {
    hide Lists, Run;
    BroadcastReady(s, t, c, u);
    hide Inv, Frees, Broadcasts;
    steps, s' := Spread(s, u);
    SpreadFrees(s, s', u);
    SpreadingInv(s, steps, s');
    assert u != t && IsCancelling(s'.blocked, t, c);
    hide Spreads;
    StaysDoomed(s, s', t, c);
  }

  lemma BroadcastReady(s: Sys, t: Task, c: Core, u: Task)
    requires Doomed(s, t, c) && u in s.blocked && s.blocked[u].Broadcasting?
    ensures Broadcasts(s, u)
  {
    hide Lists, HolderWaits, Stages, Cancels, AllAccounted, Opening;
    assert BroadcastOk(s, u);
  }

  lemma ReleaseCancelled(s: Sys, t: Task, c: Core, u: Task) returns (steps: seq<Step>, s': Sys)
    requires Doomed(s, t, c) && u in s.blocked && s.blocked[u].Cancelled?
    ensures Released(s, steps, s', t, c, u)
  {
    var step := DeliverCancelled(u);
    CancelledReady(s, t, c, u);
    FinishFrees(s, u);
    var s1 := Apply(s, step);
    DoomedStep(s, step, t, c);
    hide Doomed, Frees, Enabled, Apply;
    if u in s1.blocked {
      steps, s' := ReleaseBroadcasting(s1, t, c, u);
      ReleasedLater(s, step, steps, s', t, c, u);
      steps := [step] + steps;
    } else {
      steps, s' := [step], s1;
      ReleasedAtOnce(s, step, t, c, u);
    }
  }

  lemma CancelledReady(s: Sys, t: Task, c: Core, u: Task)
    requires Doomed(s, t, c) && u in s.blocked && s.blocked[u].Cancelled?
    ensures Enabled(s, DeliverCancelled(u)) && IsCancelling(DoDeliverCancelled(s, u).blocked, t, c)
  {
    assert Shape(s) && u != t;
    hide Lists, HolderWaits, Inv, CoreSet;
  }

  lemma ReleaseCancelling(s: Sys, t: Task, c: Core, u: Task) returns (steps: seq<Step>, s': Sys)
    requires Doomed(s, t, c) && u in s.blocked && s.blocked[u].Cancelling? && u != t
    ensures Released(s, steps, s', t, c, u)
  {
    var step := DeliverCancel(u);
    CancellingReady(s, t, c, u);
    CancelFrees(s, u);
    var s1 := Apply(s, step);
    DoomedStep(s, step, t, c);
    hide Doomed, Frees, Enabled, Apply;
    steps, s' := ReleaseCancelled(s1, t, c, u);
    ReleasedLater(s, step, steps, s', t, c, u);
    steps := [step] + steps;
  }

  lemma CancellingReady(s: Sys, t: Task, c: Core, u: Task)
    requires Doomed(s, t, c) && u in s.blocked && s.blocked[u].Cancelling? && u != t
    ensures Enabled(s, DeliverCancel(u)) && IsCancelling(DoDeliverCancel(s, u).blocked, t, c)
  {
    assert Shape(s);
    hide Lists, HolderWaits, Inv;
  }

  lemma ReleaseProbed(s: Sys, t: Task, c: Core, u: Task) returns (steps: seq<Step>, s': Sys)
    requires Doomed(s, t, c) && u in s.blocked && s.blocked[u].Probed? && s.blocked[u].co <= 0
    ensures Released(s, steps, s', t, c, u)
  {
    var step := DeliverProbed(u);
    assert Enabled(s, step) && u != t;
    ProbedFrees(s, u);
    assert IsCancelling(Apply(s, step).blocked, t, c);
    DoomedStep(s, step, t, c);
    hide Doomed, Frees, Enabled, Apply;
    ReleasedAtOnce(s, step, t, c, u);
    steps, s' := [step], Apply(s, step);
  }

  lemma ReleaseWoken(s: Sys, t: Task, c: Core, u: Task, e: Core) returns (steps: seq<Step>, s': Sys)
    requires Doomed(s, t, c) && 0 <= e < Cores(s) && u in s.locals[e].waking && Wake(e) in s.net
    ensures Released(s, steps, s', t, c, u)
  {
    var step := DeliverWake(e);
    WakeFrees(s, e);
    CancellingNotWoken(s, t, c, e);
    DoomedStep(s, step, t, c);
    hide Doomed, Frees, Enabled, Apply;
    ReleasedAtOnce(s, step, t, c, u);
    steps, s' := [step], Apply(s, step);
  }

  lemma CancellingNotWoken(s: Sys, t: Task, c: Core, e: Core)
    requires Shape(s) && Lists(s) && IsCancelling(s.blocked, t, c) && e < Cores(s)
    ensures IsCancelling(DoDeliverWake(s, e).blocked, t, c)
  {
  }

  /** A task that holds work and does not wait for the end of the phase can be brought to run. */
  lemma Release(s: Sys, t: Task, c: Core, u: Task, d: Core) returns (steps: seq<Step>, s': Sys)
    requires Doomed(s, t, c) && d < Cores(s) && u in s.held[d] && u != t && u in s.blocked
    ensures Released(s, steps, s', t, c, u)
  {
    NotWaiting(s, t, c, u, d);
    hide Doomed, Released;
    match s.blocked[u]
    case Cancelling(_) => steps, s' := ReleaseCancelling(s, t, c, u);
    case Cancelled(_, _) => steps, s' := ReleaseCancelled(s, t, c, u);
    case Broadcasting(_, _, _) => steps, s' := ReleaseBroadcasting(s, t, c, u);
    case Probed(_, _) => steps, s' := ReleaseProbed(s, t, c, u);
    case OnCv(_) =>
      var e :| 0 <= e < Cores(s) && u in s.locals[e].waking && Wake(e) in s.net;
      steps, s' := ReleaseWoken(s, t, c, u, e);
  }

  lemma NotWaiting(s: Sys, t: Task, c: Core, u: Task, d: Core)
    requires Doomed(s, t, c) && d < Cores(s) && u in s.held[d]
    ensures !Waits(s, u)
  {
    hide Inv, Lists;
  }

  // ---------- Completing everything that the master knows of ----------

  /** The enrollments held and being completed on the first k cores. */
  function Load(s: Sys, k: nat): nat
    requires Shape(s) && k <= Cores(s)
  {
    if k == 0 then 0 else Load(s, k - 1) + |s.held[k - 1]| + s.completing[k - 1]
  }

  lemma {:induction false} LoadDrops(s: Sys, s': Sys, d: Core, k: nat)
    requires Shape(s) && Shape(s') && Cores(s') == Cores(s) && k <= Cores(s) && d < Cores(s)
    requires forall e :: 0 <= e < Cores(s) && e != d ==> s'.held[e] == s.held[e] && s'.completing[e] == s.completing[e]
    requires |s'.held[d]| + s'.completing[d] < |s.held[d]| + s.completing[d]
    ensures Load(s', k) + (if d < k then 1 else 0) <= Load(s, k)
    decreases k
  {
    if k > 0 {
      LoadDrops(s, s', d, k - 1);
    }
  }

  lemma {:induction false} SameLoad(s: Sys, s': Sys, k: nat)
    requires Shape(s) && Shape(s') && Cores(s') == Cores(s) && k <= Cores(s)
    requires s'.held == s.held && s'.completing == s.completing
    ensures Load(s', k) == Load(s, k)
    decreases k
  {
    if k > 0 {
      SameLoad(s, s', k - 1);
    }
  }

  lemma GivingUpFrees(s: Sys, s1: Sys, d: Core, k: nat)
    requires Shape(s) && Shape(s1) && d < Cores(s) && s1 == s.(held := s1.held, completing := s1.completing)
    requires forall e :: 0 <= e < Cores(s) ==> s1.held[e] <= s.held[e] && s1.completing[e] <= s.completing[e]
    ensures var s' := CompleteOn(s1, d, k);
      Frees(s, s') && s'.blocked == s.blocked && s'.held == s1.held && s'.completing == s1.completing
  {
  }

  lemma DeliveryFrees(s: Sys, d: Core, k: nat)
    requires Enabled(s, DeliverCompletion(d, k))
    ensures var s' := DoDeliverCompletion(s, d, k);
      Frees(s, s') && s'.blocked == s.blocked && Load(s', Cores(s)) < Load(s, Cores(s))
  {
    hide CompleteOn, Frees;
    var s1 := s.(completing := s.completing[d := s.completing[d] - k]);
    var s' := CompleteOn(s1, d, k);
    GivingUpFrees(s, s1, d, k);
    FreesShape(s, s');
    LoadDrops(s, s', d, Cores(s));
  }

  lemma FreesShape(s: Sys, s': Sys)
    requires Frees(s, s')
    ensures Shape(s') && Cores(s') == Cores(s)
  {
  }

  lemma CompletionFrees(s: Sys, u: Task, d: Core, k: nat)
    requires Enabled(s, CompleteStep(u, d, d, k))
    ensures var s' := DoComplete(s, u, d, d, k);
      Frees(s, s') && s'.blocked == s.blocked && Load(s', Cores(s)) < Load(s, Cores(s))
  {
    hide CompleteOn, Frees;
    var s1 := s.(held := s.held[d := s.held[d][u := s.held[d][u] - k]]);
    var s' := CompleteOn(s1, d, k);
    TakesAway(s.held[d], u, k);
    assert s1.held[d] <= s.held[d];
    GivingUpFrees(s, s1, d, k);
    FreesShape(s, s');
    LoadDrops(s, s', d, Cores(s));
  }

  /** Only the doomed enrollment is left: the entries in flight are all that the counter stands for. */
  lemma NothingElse(s: Sys, t: Task, c: Core)
    requires Doomed(s, t, c)
    requires forall d :: 0 <= d < Cores(s) && d != c ==> s.held[d] == multiset{} && s.completing[d] == 0
    ensures Unseen(s, c) && s.net[Enter] >= 1
  {
    assert CancelOk(s, t, c);
    assert |s.held[c]| > 0;
    forall d | 0 <= d < Cores(s) && d != c ensures d !in s.counted {
      assert |s.held[d]| == 0 && s.locals[d].count == 0;
    }
    assert s.counted == {};
  }

  lemma {:induction false} Overrun(s: Sys, t: Task, c: Core)
    requires Doomed(s, t, c)
    ensures CanFail(s)
    decreases Load(s, Cores(s))
  {
    hide CanFail;
    if d :| 0 <= d < Cores(s) && d != c && s.completing[d] > 0 {
      OverrunDelivery(s, t, c, d);
    } else if d, u :| 0 <= d < Cores(s) && d != c && u in s.held[d] {
      var steps, s1 := [], s;
      if u in s.blocked {
        steps, s1 := Release(s, t, c, u, d);
      } else {
        assert Released(s, steps, s1, t, c, u);
      }
      SameLoad(s, s1, Cores(s));
      OverrunCompletion(s1, t, c, d, u);
      FailsLater(s, steps, s1);
    } else {
      forall d | 0 <= d < Cores(s) && d != c ensures s.held[d] == multiset{} {
        assert forall u :: u !in s.held[d];
      }
      NothingElse(s, t, c);
      UnseenFails(s, c);
    }
  }

  lemma OverrunDelivery(s: Sys, t: Task, c: Core, d: Core)
    requires Doomed(s, t, c) && d < Cores(s) && d != c && s.completing[d] > 0
    ensures CanFail(s)
    decreases Load(s, Cores(s)), 0
  {
    var step := DeliverCompletion(d, s.completing[d]);
    DeliveryFrees(s, d, s.completing[d]);
    DoomedStep(s, step, t, c);
    hide Doomed, CanFail;
    Overrun(Apply(s, step), t, c);
    FailsNext(s, step);
  }

  lemma OverrunCompletion(s: Sys, t: Task, c: Core, d: Core, u: Task)
    requires Doomed(s, t, c) && d < Cores(s) && d != c && u in s.held[d] && u !in s.blocked
    ensures CanFail(s)
    decreases Load(s, Cores(s)), 0
  {
    var step := CompleteStep(u, d, d, s.held[d][u]);
    CompletionFrees(s, u, d, s.held[d][u]);
    DoomedStep(s, step, t, c);
    hide Doomed, CanFail;
    Overrun(Apply(s, step), t, c);
    FailsNext(s, step);
  }
}
