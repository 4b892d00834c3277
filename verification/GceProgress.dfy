/**
 What the GlobalCompletionEvent protocol gets done.  Between phases `wait` falls through.
 When no task holds work any more, delivering what is in flight ends the phase, returns
 the event to where it started and wakes the waiters; and exactly which waiters.
 */
module GceProgress {
  import opened Basics
  import opened GceCore
  import opened GceProtocol
  import opened GceRuns
  import opened GceSafety
  import opened GceTheorems
  import opened GceWake
  import opened GceOverrun
  import opened GceCausality
  import opened GcePhases

  // ---------- Between phases ----------

  /** No core takes a phase to be open that is over, unless its reset is in flight; only the master counts cores. */
  ghost predicate Calm(s: Sys) {
    && Shape(s)
    && (s.stage != Active ==> forall c :: 0 <= c < Cores(s) && s.locals[c].inProgress ==> Reset(c) in s.net)
    && (forall c :: 0 < c < Cores(s) ==> s.locals[c].coresOut == 0 && s.locals[c].wakingOut == 0)
  }

  /** Outside a phase no enroll but one that opens a phase is allowed, and none is under way. */
  lemma OutsidePhase(s: Sys, step: Step)
    requires Inv(s) && s.stage != Active && Enabled(s, step)
    ensures !step.DeliverCancelled? && !step.DeliverProgress? && !step.DeliverEnter?
    ensures step.EnrollStep? ==> step.inc == 0 || (s.stage == Idle && s.locals[step.c].count == 0)
    ensures step.DeliverReset? || step.DeliverResetAck? ==> s.stage == Resetting
  {
    assert s.counted == {} && s.locals[MASTER].coresOut == 0;
    assert forall c :: 0 <= c < Cores(s) ==> |s.held[c]| == 0 && s.locals[c].count == 0;
  }

  /** An enroll counts on the master only, and one of nothing does nothing. */
  lemma OnlyMasterCounts(s: Sys, t: Task, c: Core, inc: nat, via: Core)
    requires Calm(s) && c < Cores(s) && t !in s.blocked
    ensures var s' := DoEnroll(s, t, c, inc, via);
      && Shape(s') && Cores(s') == Cores(s) && (inc == 0 ==> s' == s)
      && forall d :: 0 < d < Cores(s) ==> s'.locals[d].coresOut == 0 && s'.locals[d].wakingOut == 0
  {
    EnrollKeeps(s, t, c, inc, via);
    if inc > 0 && s.locals[c].count == 0 && c == MASTER {
      FinishKeeps(CancelAtMaster(FirstWork(s, t, MASTER, inc, via), MASTER), t, MASTER, s.locals[MASTER].coresOut + 1);
    }
    hide FinishEnroll, MayEnroll, EnrollFrame;
  }

  lemma EnrollCalm(s: Sys, t: Task, c: Core, inc: nat, via: Core)
    requires Inv(s) && Calm(s) && Enabled(s, EnrollStep(t, c, inc, via))
    ensures var s' := DoEnroll(s, t, c, inc, via); Shape(s') && Calm(s')
  {
    EnrollKeeps(s, t, c, inc, via);
    if s.stage != Active {
      OutsidePhase(s, EnrollStep(t, c, inc, via));
    }
    OnlyMasterCounts(s, t, c, inc, via);
    hide Inv, DoEnroll, MayEnroll;
  }

  lemma AckCalm(s: Sys)
    requires Calm(s) && s.stage == Resetting
    requires s.locals[MASTER].wakingOut == 1 ==> forall c: Core :: c < Cores(s) ==> Reset(c) !in s.net
    ensures Calm(DoDeliverResetAck(s))
  {
    var s' := DoDeliverResetAck(s);
    assert forall c: Core :: Reset(c) in s.net ==> Reset(c) in s'.net;
    hide WakeToAll;
  }

  lemma LastAckCalm(s: Sys)
    requires Inv(s) && Calm(s) && Enabled(s, DeliverResetAck)
    ensures Shape(DoDeliverResetAck(s)) && Calm(DoDeliverResetAck(s))
  {
    assert s.stage == Resetting;
    if s.locals[MASTER].wakingOut == 1 {
      AllReset(s);
    }
    hide Inv;
    AckCalm(s);
  }

  /** When the last acknowledgement arrives every core has been reset. */
  lemma AllReset(s: Sys)
    requires Inv(s) && s.stage == Resetting && ResetAck in s.net && s.locals[MASTER].wakingOut == 1
    ensures forall c: Core :: c < Cores(s) ==> Reset(c) !in s.net
  {
    assert ToReset(s) == {};
    forall c: Core | c < Cores(s) ensures Reset(c) !in s.net {
      assert c !in ToReset(s);
    }
  }

  lemma EnterCalm(s: Sys)
    requires Inv(s) && Calm(s) && Enabled(s, DeliverEnter)
    ensures Shape(DoDeliverEnter(s)) && Calm(DoDeliverEnter(s))
  {
    assert s.stage == Active;
    hide Inv;
  }

  lemma ResetCalm(s: Sys, c: Core)
    requires Inv(s) && Calm(s) && Enabled(s, DeliverReset(c))
    ensures Shape(DoDeliverReset(s, c)) && Calm(DoDeliverReset(s, c))
  {
    assert s.stage == Resetting;
    hide Inv;
  }

  lemma OtherCalm(s: Sys, step: Step)
    requires Calm(s) && Enabled(s, step)
    requires step.DeliverCancel? || step.DeliverProgressAck? || step.HandOff? || step.DeliverWake? || step.DeliverProbe?
    ensures Shape(Apply(s, step)) && Calm(Apply(s, step))
  {
  }

  lemma SuspendCalm(s: Sys, t: Task, c: Core)
    requires Calm(s) && c < Cores(s)
    ensures Calm(SuspendOn(s, t, c))
  {
  }

  lemma WaitCalm(s: Sys, t: Task, c: Core)
    requires Calm(s) && Enabled(s, WaitStep(t, c))
    ensures Calm(DoWait(s, t, c))
  {
    SuspendCalm(s, t, c);
    hide SuspendOn;
  }

  lemma ProbedCalm(s: Sys, t: Task)
    requires Calm(s) && Enabled(s, DeliverProbed(t))
    ensures Calm(DoDeliverProbed(s, t))
  {
    SuspendCalm(s, t, s.blocked[t].at);
    hide SuspendOn;
  }

  lemma CompleteOnCalm(s: Sys, d: Core, k: nat)
    requires Calm(s) && d < Cores(s)
    ensures Calm(CompleteOn(s, d, k))
  {
  }

  lemma CompleteCalm(s: Sys, t: Task, c: Core, d: Core, k: nat)
    requires Calm(s) && Enabled(s, CompleteStep(t, c, d, k))
    ensures Calm(DoComplete(s, t, c, d, k))
  {
    if c == d {
      hide CompleteOn;
      CompleteOnCalm(s.(held := s.held[d := s.held[d][t := s.held[d][t] - k]]), d, k);
    }
  }

  lemma CompletionCalm(s: Sys, d: Core, k: nat)
    requires Calm(s) && Enabled(s, DeliverCompletion(d, k))
    ensures Calm(DoDeliverCompletion(s, d, k))
  {
    hide CompleteOn;
    CompleteOnCalm(s.(completing := s.completing[d := s.completing[d] - k]), d, k);
  }

  lemma StepCalm(s: Sys, step: Step)
    requires Inv(s) && Calm(s) && Enabled(s, step)
    ensures Shape(Apply(s, step)) && Calm(Apply(s, step))
  {
    hide Inv;
    StepShape(s, step);
    match step
    case EnrollStep(t, c, inc, via) => EnrollCalm(s, t, c, inc, via);
    case DeliverCancelled(t) => ActiveCalm(s, step);
    case DeliverProgress(t, d) => ActiveCalm(s, step);
    case CompleteStep(t, c, d, k) => CompleteCalm(s, t, c, d, k);
    case DeliverCompletion(d, k) => CompletionCalm(s, d, k);
    case DeliverEnter => EnterCalm(s);
    case DeliverReset(c) => ResetCalm(s, c);
    case DeliverResetAck => LastAckCalm(s);
    case WaitStep(t, c) => WaitCalm(s, t, c);
    case DeliverProbed(t) => ProbedCalm(s, t);
    case _ => OtherCalm(s, step);
  }

  lemma ActiveCalm(s: Sys, step: Step)
    requires Inv(s) && Calm(s) && Enabled(s, step) && (step.DeliverCancelled? || step.DeliverProgress?)
    ensures Shape(Apply(s, step)) && Calm(Apply(s, step))
  {
    StepShape(s, step);
    if s.stage != Active {
      OutsidePhase(s, step);
      assert false;
    }
    StaysActive(s, step);
    hide Inv, Enabled;
    match step {
      case DeliverCancelled(t) => FinishKeeps(s, t, s.blocked[t].at, s.blocked[t].co); hide FinishEnroll;
      case DeliverProgress(t, d) =>
    }
  }

  lemma {:induction false} RunCalm(s: Sys, steps: seq<Step>, s': Sys)
    requires Inv(s) && Lists(s) && s.rogue == {} && Calm(s) && Run(s, steps, s')
    ensures Shape(s') && Calm(s')
    decreases |steps|
  {
    if steps != [] {
      StepInv(s, steps[0]);
      StepCalm(s, steps[0]);
      hide Inv, Lists, Enabled, Apply;
      RunCalm(Apply(s, steps[0]), steps[1..], s');
    }
  }

  lemma ReachableCalm(n: nat, s: Sys)
    requires n >= 1 && Reachable(n, s)
    ensures Shape(s) && Calm(s)
  {
    var steps :| Run(InitSys(n), steps, s);
    InitInv(n);
    RunCalm(InitSys(n), steps, s);
  }

  // ---------- Where there is work ----------

  /** A core with work knows that a phase is open. */
  ghost predicate Aware(s: Sys) {
    Shape(s) && forall c :: 0 <= c < Cores(s) && s.locals[c].count > 0 ==> s.locals[c].inProgress
  }

  lemma FinishAware(s: Sys, t: Task, c: Core, co: int)
    requires Aware(s) && c < Cores(s)
    ensures Aware(FinishEnroll(s, t, c, co))
  {
    hide CoreSet;
  }

  lemma FirstAware(s: Sys, t: Task, c: Core, inc: nat, via: Core)
    requires Aware(s) && c < Cores(s) && s.locals[c].count == 0
    ensures Aware(FirstWork(s, t, c, inc, via)) && Aware(CancelAtMaster(FirstWork(s, t, c, inc, via), c))
  {
    hide MayEnroll;
  }

  lemma EnrollAware(s: Sys, t: Task, c: Core, inc: nat, via: Core)
    requires Aware(s) && Inv(s) && Enabled(s, EnrollStep(t, c, inc, via))
    ensures Aware(DoEnroll(s, t, c, inc, via))
  {
    assert s.locals[c].count >= 0;
    hide Inv;
    if inc > 0 && s.locals[c].count == 0 {
      FirstAware(s, t, c, inc, via);
      if c == MASTER {
        FinishAware(CancelAtMaster(FirstWork(s, t, MASTER, inc, via), MASTER), t, MASTER, s.locals[MASTER].coresOut + 1);
      }
      hide FinishEnroll, MayEnroll;
    }
  }

  lemma CompleteOnAware(s: Sys, d: Core, k: nat)
    requires Aware(s) && d < Cores(s)
    ensures Aware(CompleteOn(s, d, k))
  {
  }

  lemma CompleteAware(s: Sys, step: Step)
    requires Aware(s) && Enabled(s, step) && (step.CompleteStep? || step.DeliverCompletion?)
    ensures Aware(Apply(s, step))
  {
    hide CompleteOn;
    match step
    case CompleteStep(t, c, d, k) =>
      if c == d { CompleteOnAware(s.(held := s.held[d := s.held[d][t := s.held[d][t] - k]]), d, k); }
    case DeliverCompletion(d, k) => CompleteOnAware(s.(completing := s.completing[d := s.completing[d] - k]), d, k);
  }

  lemma MasterAware(s: Sys)
    requires Aware(s)
    ensures Aware(DoDeliverEnter(s)) && Aware(DoDeliverResetAck(s))
  {
    MasterKeeps(s);
    hide DoDeliverEnter, DoDeliverResetAck;
  }

  lemma SuspendAware(s: Sys, t: Task, c: Core)
    requires Aware(s) && c < Cores(s)
    ensures Aware(SuspendOn(s, t, c))
  {
  }

  lemma WaitAware(s: Sys, step: Step)
    requires Aware(s) && Enabled(s, step) && (step.WaitStep? || step.DeliverProbed?)
    ensures Aware(Apply(s, step))
  {
    SuspendAware(s, step.t, if step.WaitStep? then step.c else s.blocked[step.t].at);
    hide SuspendOn;
  }

  lemma HandlerAware(s: Sys, step: Step)
    requires Aware(s) && Enabled(s, step) && (step.DeliverProgress? || step.DeliverReset? || step.DeliverWake?)
    ensures Aware(Apply(s, step))
  {
  }

  lemma OtherAware(s: Sys, step: Step)
    requires Aware(s) && Enabled(s, step)
    requires step.DeliverCancel? || step.DeliverProgressAck? || step.HandOff? || step.DeliverProbe?
    ensures Aware(Apply(s, step))
  {
  }

  lemma StepAware(s: Sys, step: Step)
    requires Inv(s) && Aware(s) && Enabled(s, step)
    ensures Aware(Apply(s, step))
  {
    hide Inv, Aware;
    match step
    case EnrollStep(t, c, inc, via) => EnrollAware(s, t, c, inc, via);
    case DeliverCancelled(t) => FinishAware(s, t, s.blocked[t].at, s.blocked[t].co);
    case CompleteStep(t, c, d, k) => CompleteAware(s, step);
    case DeliverCompletion(d, k) => CompleteAware(s, step);
    case DeliverEnter => MasterAware(s);
    case DeliverResetAck => MasterAware(s);
    case WaitStep(t, c) => WaitAware(s, step);
    case DeliverProbed(t) => WaitAware(s, step);
    case DeliverProgress(t, d) => HandlerAware(s, step);
    case DeliverReset(c) => HandlerAware(s, step);
    case DeliverWake(c) => HandlerAware(s, step);
    case _ => OtherAware(s, step);
  }

  lemma {:induction false} RunAware(s: Sys, steps: seq<Step>, s': Sys)
    requires Inv(s) && Lists(s) && s.rogue == {} && Aware(s) && Run(s, steps, s')
    ensures Aware(s')
    decreases |steps|
  {
    if steps != [] {
      StepInv(s, steps[0]);
      StepAware(s, steps[0]);
      hide Inv, Lists, Enabled, Apply, Aware;
      RunAware(Apply(s, steps[0]), steps[1..], s');
    }
  }

  /** On a core with work wait suspends its caller, from the moment its first enroll starts. */
  lemma WaitSuspendsAtWork(n: nat, s: Sys, t: Task, c: Core)
    requires n >= 1 && Reachable(n, s) && Enabled(s, WaitStep(t, c)) && s.locals[c].count > 0
    ensures t in Apply(s, WaitStep(t, c)).blocked && Apply(s, WaitStep(t, c)).blocked[t] == OnCv(c)
  {
    var steps :| Run(InitSys(n), steps, s);
    InitInv(n);
    RunAware(InitSys(n), steps, s);
  }

  // ---------- wait between phases ----------

  /** Nobody's request reaches the master's counter between phases. */
  lemma IdleMaster(s: Sys)
    requires Inv(s) && s.stage == Idle
    ensures s.locals[MASTER].coresOut == 0
  {
    assert s.counted == {};
  }

  /** The steps of a call to wait on core c that is not suspended at once. */
  function WaitSteps(t: Task, c: Core): seq<Step> {
    if c == MASTER then [WaitStep(t, c)] else [WaitStep(t, c), DeliverProbe(t), DeliverProbed(t)]
  }

  lemma ProbeIsAnswered(s: Sys, t: Task)
    requires Inv(s) && Enabled(s, DeliverProbe(t)) && s.blocked[t].at < Cores(s)
    ensures var s1 := Apply(s, DeliverProbe(t));
      && Enabled(s1, DeliverProbed(t))
      && (t in Apply(s1, DeliverProbed(t)).blocked <==> Running(s))
      && (!Running(s) ==> Apply(s1, DeliverProbed(t)) == Unblock(s, t))
  {
    OutIsRunning(s);
    assert s.blocked[t := Probed(s.blocked[t].at, s.locals[MASTER].coresOut)] - {t} == s.blocked - {t};
  }

  /**
   The master's answer to wait's question: when it arrives, the task is suspended if and
   only if, at the time the master answered, a phase was open whose opener's request had
   reached it.
   */
  lemma AnsweredIff(n: nat, s: Sys, t: Task)
    requires n >= 1 && Reachable(n, s) && Enabled(s, DeliverProbe(t))
    ensures var s1 := Apply(s, DeliverProbe(t));
      && Enabled(s1, DeliverProbed(t))
      && (t in Apply(s1, DeliverProbed(t)).blocked <==>
            s.stage == Active && (s.opener.Some? ==> s.opener.value in s.blocked && !s.blocked[s.opener.value].Cancelling?))
  {
    ReachableAll(n, s);
    OutIsRunning(s);
    ProbeIsAnswered(s, t);
  }

  lemma AskMaster(s: Sys, t: Task, c: Core)
    requires Inv(s) && s.stage == Idle && t !in s.blocked && c < Cores(s) && !s.locals[c].inProgress
    ensures var s1 := DoWait(s, t, c);
      if c == MASTER then s1 == s else Inv(s1) && s1 == s.(blocked := s.blocked[t := Probing(c)])
  {
    IdleMaster(s);
    if c != MASTER { WaitInv(s, t, c); }
  }

  lemma ComesBack(s: Sys, t: Task, c: Core)
    requires Inv(s) && s.stage == Idle && t !in s.blocked && c < Cores(s) && !s.locals[c].inProgress && c != MASTER
    ensures Enabled(s, WaitStep(t, c)) && Enabled(Apply(s, WaitStep(t, c)), DeliverProbe(t))
    ensures var s2 := Apply(Apply(s, WaitStep(t, c)), DeliverProbe(t));
      Enabled(s2, DeliverProbed(t)) && Apply(s2, DeliverProbed(t)) == s
  {
    AskMaster(s, t, c);
    var s1 := DoWait(s, t, c);
    assert Apply(s, WaitStep(t, c)) == s1;
    assert s.blocked[t := Probing(c)] - {t} == s.blocked;
    assert Unblock(s1, t) == s;
    assert Enabled(s1, DeliverProbe(t));
    ProbeIsAnswered(s1, t);
    hide Inv, Apply, DoWait;
  }

  /**
   Between phases wait falls through on every core: the call comes back, after its
   question to the master, and everything is as it was.
   */
  lemma WaitFallsThrough(n: nat, s: Sys, t: Task, c: Core)
    requires n >= 1 && Reachable(n, s) && s.stage == Idle && t !in s.blocked && c < Cores(s)
    ensures Run(s, WaitSteps(t, c), s)
  {
    ReachableInv(n, s);
    ReachableCalm(n, s);
    assert Reset(c) !in s.net;
    if c == MASTER {
      AskMaster(s, t, c);
      hide Inv, Lists, Reachable, Calm;
      RunOne(s, WaitStep(t, c));
    } else {
      ComesBack(s, t, c);
      hide Inv, Lists, Reachable, Calm, Run, Apply, Enabled;
      ThreeSteps(s, WaitStep(t, c), DeliverProbe(t), DeliverProbed(t));
    }
  }

  lemma ThreeSteps(s: Sys, x: Step, y: Step, z: Step)
    requires Enabled(s, x) && Enabled(Apply(s, x), y) && Enabled(Apply(Apply(s, x), y), z)
    ensures Run(s, [x, y, z], Apply(Apply(Apply(s, x), y), z))
  {
    hide Enabled, Apply;
    var s1, s2 := Apply(s, x), Apply(Apply(s, x), y);
    RunOne(s2, z);
    RunCons(s1, y, [z], Apply(s2, z));
    RunCons(s, x, [y] + [z], Apply(s2, z));
    assert [x] + ([y] + [z]) == [x, y, z];
  }

  // ---------- Ending a phase ----------

  /** No message is in flight. */
  ghost predicate Quiet(s: Sys) {
    && Enter !in s.net && ResetAck !in s.net
    && forall c: Core :: c < Cores(s) ==> Reset(c) !in s.net && Wake(c) !in s.net
  }

  /**
   The event is reusable.  Between phases, with no message left, every core is back in the
   state in which the event starts, but for tasks that were suspended too late.
   */
  lemma BackToStart(n: nat, s: Sys, c: Core)
    requires n >= 1 && Reachable(n, s) && c < Cores(s) && s.stage == Idle && Quiet(s)
    ensures s.locals[c] == Local(0, false, 0, 0, s.locals[c].cv, [])
    ensures s.locals[c].(cv := []) == InitSys(n).locals[0]
  {
    WakeReachableInv(n, s);
    ReachableCalm(n, s);
    assert |s.held[c]| == 0;
  }

  predicate AllDeliver(steps: seq<Step>) {
    forall i :: 0 <= i < |steps| ==> Actor(steps[i]) == None
  }

  /** No task holds an enrollment. */
  ghost predicate Unheld(s: Sys) {
    Shape(s) && forall d :: 0 <= d < Cores(s) ==> s.held[d] == multiset{}
  }

  /** A reset of core c is still to come. */
  predicate Ahead(s: Sys, c: Core) {
    s.stage == Active || Reset(c) in s.net
  }

  /** Task t is suspended on core c, and a wake will find it. */
  predicate Served(s: Sys, t: Task, c: Core) {
    && t in s.blocked && s.blocked[t] == OnCv(c) && c < Cores(s)
    && (t in s.locals[c].waking || (t in s.locals[c].cv && Ahead(s, c)))
  }

  /** From s to s' nobody who will be woken is forgotten, and other calls stay where they are. */
  ghost predicate Drains(s: Sys, s': Sys) {
    && Shape(s) && Shape(s') && Cores(s') == Cores(s)
    && (forall t, c :: Served(s, t, c) ==> t !in s'.blocked || Served(s', t, c))
    && (forall t :: t in s'.blocked ==> t in s.blocked && s'.blocked[t] == s.blocked[t])
    && (forall t :: t in s.blocked && !s.blocked[t].OnCv? ==> t in s'.blocked)
  }

  lemma DrainsTrans(s: Sys, s1: Sys, s2: Sys)
    requires Drains(s, s1) && Drains(s1, s2)
    ensures Drains(s, s2)
  {
    hide Served;
    forall t, c | Served(s, t, c) ensures t !in s2.blocked || Served(s2, t, c) {
      assert t !in s1.blocked || Served(s1, t, c);
    }
  }

  function Rank(stage: Stage): nat {
    match stage
    case Active => 2
    case Resetting => 1
    case Idle => 0
  }

  /** Is s' nearer to the end than s? */
  ghost predicate Nearer(s: Sys, s': Sys)
    requires Shape(s) && Shape(s')
  {
    var a, a' := Load(s, Cores(s)), Load(s', Cores(s'));
    var b, b' := |ToReset(s)|, |ToReset(s')|;
    || Rank(s'.stage) < Rank(s.stage)
    || (s'.stage == s.stage && a' < a)
    || (s'.stage == s.stage && a' == a && b' < b)
    || (s'.stage == s.stage && a' == a && b' == b && |s'.net| < |s.net|)
  }

  /** What one delivery on the way to the end of a phase does. */
  ghost predicate Advances(s: Sys, step: Step) {
    && Enabled(s, step) && Actor(step) == None
    && var s' := Apply(s, step); Drains(s, s') && Unheld(s') && Nearer(s, s')
  }

  lemma AdvancesBy(s: Sys, step: Step, s': Sys)
    requires Enabled(s, step) && Actor(step) == None && s' == Apply(s, step) && Drains(s, s') && Unheld(s') && Nearer(s, s')
    ensures Advances(s, step)
  {
    hide Enabled, Apply, Drains, Unheld, Nearer;
  }

  /** Without work going away, a step comes nearer to the end by its stage, its resets or its messages. */
  lemma NearerBy(s: Sys, s': Sys)
    requires Unheld(s) && Shape(s') && Cores(s') == Cores(s) && s'.held == s.held && s'.completing == s.completing
    requires || Rank(s'.stage) < Rank(s.stage)
             || (s'.stage == s.stage && |ToReset(s')| < |ToReset(s)|)
             || (s'.stage == s.stage && ToReset(s') == ToReset(s) && |s'.net| < |s.net|)
    ensures Nearer(s, s') && Unheld(s')
  {
    SameLoad(s, s', Cores(s));
    hide Load, ToReset;
  }

  lemma SameResets(s: Sys, s': Sys)
    requires Cores(s') == Cores(s) && forall c: Core :: Reset(c) in s.net <==> Reset(c) in s'.net
    ensures ToReset(s') == ToReset(s)
  {
  }

  lemma ResettingFacts(s: Sys)
    requires WakingInv(s)
    ensures ResetAck in s.net ==> s.stage == Resetting
    ensures forall c: Core :: Reset(c) in s.net ==> s.stage == Resetting && s.net[Reset(c)] == 1
  {
    hide Counting, Causality, Lists, Wakes, Waiters, ResetsInStep;
  }

  /** From s to s' only the master's counters, the messages, the stage and the CHECKs have changed. */
  ghost predicate Counts(s: Sys, s': Sys) {
    && SameLists(s, s') && Cores(s') == Cores(s) && s'.blocked == s.blocked && s'.held == s.held && s'.completing == s.completing
  }

  lemma EntryCounts(s: Sys)
    requires Shape(s)
    ensures Counts(s, DoDeliverEnter(s)) && Counts(s, DoDeliverResetAck(s))
  {
    MasterLeavesLists(s);
    MasterKeeps(s);
    hide DoDeliverEnter, DoDeliverResetAck, SameLists;
  }

  /** Counting forgets nobody, if no reset goes away. */
  lemma CountsDrain(s: Sys, s': Sys)
    requires Counts(s, s') && forall c: Core :: c < Cores(s) && Ahead(s, c) ==> Ahead(s', c)
    ensures Drains(s, s') && Shape(s')
  {
    ListsDrain(s, s');
  }

  lemma WakeDrains(s: Sys, c: Core)
    requires WakingInv(s) && Enabled(s, DeliverWake(c))
    ensures Drains(s, DoDeliverWake(s, c))
  {
    hide Inv, Wakes, Waiters, ResetsInStep;
    var s' := DoDeliverWake(s, c);
    forall t, d | Served(s, t, d) ensures t !in s'.blocked || Served(s', t, d) {
      if t in s.locals[c].waking { assert s.blocked[t] == OnCv(c); }
    }
  }

  lemma WakeAdvances(s: Sys, c: Core)
    requires WakingInv(s) && Unheld(s) && Enabled(s, DeliverWake(c))
    ensures Advances(s, DeliverWake(c))
  {
    WakeDrains(s, c);
    hide WakingInv, Drains, Served;
    var s' := DoDeliverWake(s, c);
    SameResets(s, s');
    assert |s'.net| == |s.net| - 1;
    NearerBy(s, s');
    hide Nearer, Unheld;
    AdvancesBy(s, DeliverWake(c), s');
  }

  /** Steps that leave the waiter lists alone forget nobody, if no reset goes away. */
  lemma ListsDrain(s: Sys, s': Sys)
    requires SameLists(s, s') && s'.blocked == s.blocked
    requires forall c: Core :: c < Cores(s) && Ahead(s, c) ==> Ahead(s', c)
    ensures Drains(s, s')
  {
  }

  lemma CompletionAdvances(s: Sys, d: Core)
    requires WakingInv(s) && Unheld(s) && d < Cores(s) && s.completing[d] > 0
    ensures Advances(s, DeliverCompletion(d, s.completing[d]))
  {
    var k := s.completing[d];
    hide WakingInv;
    var s' := DoDeliverCompletion(s, d, k);
    CompletionLeavesLists(s, d, k);
    DeliveryFrees(s, d, k);
    FreesShape(s, s');
    CompletionNet(s, d, k);
    ListsDrain(s, s');
    hide Drains, SameLists, DoDeliverCompletion, Frees, Served;
    assert Nearer(s, s') && Unheld(s');
    hide Nearer, Unheld;
    AdvancesBy(s, DeliverCompletion(d, k), s');
  }

  lemma CompletionNet(s: Sys, d: Core, k: nat)
    requires Enabled(s, DeliverCompletion(d, k))
    ensures var s' := DoDeliverCompletion(s, d, k);
      s'.stage == s.stage && s'.held == s.held && forall c: Core :: Reset(c) in s.net <==> Reset(c) in s'.net
  {
  }

  lemma CountsNearer(s: Sys, s': Sys)
    requires Counts(s, s') && Unheld(s) && Shape(s')
    requires Rank(s'.stage) < Rank(s.stage) || (s'.stage == s.stage && ToReset(s') == ToReset(s) && |s'.net| < |s.net|)
    ensures Nearer(s, s') && Unheld(s')
  {
    hide SameLists, ToReset;
    NearerBy(s, s');
  }

  lemma EntryForgetsNobody(s: Sys, s': Sys)
    requires Unheld(s) && Enter in s.net && s.stage == Active && s' == DoDeliverEnter(s)
    ensures Drains(s, s') && Nearer(s, s') && Unheld(s')
  {
    hide DoDeliverEnter, SameLists, Drains, Nearer;
    EntryCounts(s);
    EntryNet(s);
    CountsDrain(s, s');
    hide Counts;
    CountsNearer(s, s');
  }

  lemma EntryAdvances(s: Sys)
    requires WakingInv(s) && Unheld(s) && s.stage == Active && forall d :: 0 <= d < Cores(s) ==> s.completing[d] == 0
    ensures Advances(s, DeliverEnter)
  {
    AllCompleted(s);
    DeliverOneEntry(s);
    hide WakingInv, Inv, AllDone, DoDeliverEnter;
    var s' := DoDeliverEnter(s);
    EntryForgetsNobody(s, s');
    EntryIs(s);
    hide Drains, Nearer, Unheld, Apply, Enabled;
    AdvancesBy(s, DeliverEnter, s');
  }

  lemma AllCompleted(s: Sys)
    requires Inv(s) && Unheld(s) && forall d :: 0 <= d < Cores(s) ==> s.completing[d] == 0
    ensures AllDone(s)
  {
  }

  /** An entry detects the end of the phase and sends a reset to every core, or is one entry fewer. */
  lemma EntryNet(s: Sys)
    requires Shape(s) && Enter in s.net && s.stage == Active
    ensures var s' := DoDeliverEnter(s);
      if CompletesBarrier(s.locals[MASTER]) then s'.stage == Resetting && forall c: Core :: c < Cores(s) ==> Reset(c) in s'.net
      else s'.stage == Active && |s'.net| == |s.net| - 1 && ToReset(s') == ToReset(s)
  {
  }

  lemma OneResetFewer(s: Sys, c: Core)
    requires Shape(s) && c < Cores(s) && s.net[Reset(c)] == 1
    ensures |ToReset(DoDeliverReset(s, c))| < |ToReset(s)|
  {
    assert ToReset(DoDeliverReset(s, c)) == ToReset(s) - {c} && c in ToReset(s);
  }

  lemma ResetNearer(s: Sys, c: Core)
    requires Unheld(s) && c < Cores(s) && |ToReset(DoDeliverReset(s, c))| < |ToReset(s)|
    ensures Nearer(s, DoDeliverReset(s, c)) && Unheld(DoDeliverReset(s, c))
  {
    hide ToReset;
    NearerBy(s, DoDeliverReset(s, c));
  }

  lemma ResetAdvances(s: Sys, c: Core)
    requires WakingInv(s) && Unheld(s) && Enabled(s, DeliverReset(c)) && Wake(c) !in s.net
    ensures Advances(s, DeliverReset(c))
  {
    ResettingFacts(s);
    ResetDrains(s, c);
    hide WakingInv, Drains, Served;
    var s' := DoDeliverReset(s, c);
    OneResetFewer(s, c);
    ResetNearer(s, c);
    hide Nearer, Unheld, DoDeliverReset;
    AdvancesBy(s, DeliverReset(c), s');
  }

  lemma ResetDrains(s: Sys, c: Core)
    requires WakingInv(s) && Enabled(s, DeliverReset(c)) && Wake(c) !in s.net && s.stage == Resetting
    ensures Drains(s, DoDeliverReset(s, c))
  {
    var s' := DoDeliverReset(s, c);
    assert s.locals[c].waking == [];
    hide Inv, Waiters, ResetsInStep, Lists;
    forall t, d | Served(s, t, d) ensures Served(s', t, d) {
      if d == c { assert t in s.locals[c].cv; }
    }
  }

  lemma AckIs(s: Sys)
    requires Enabled(s, DeliverResetAck)
    ensures Apply(s, DeliverResetAck) == DoDeliverResetAck(s)
  {
  }

  lemma AckForgetsNobody(s: Sys, s': Sys)
    requires Unheld(s) && ResetAck in s.net && s.stage == Resetting && s' == DoDeliverResetAck(s)
    ensures Drains(s, s') && Nearer(s, s') && Unheld(s')
  {
    hide DoDeliverResetAck, SameLists, Drains, Nearer;
    EntryCounts(s);
    AckNet(s);
    CountsDrain(s, s');
    SameResets(s, s');
    hide Counts;
    CountsNearer(s, s');
  }

  lemma AckAdvances(s: Sys)
    requires WakingInv(s) && Unheld(s) && Enabled(s, DeliverResetAck)
    ensures Advances(s, DeliverResetAck)
  {
    ResettingFacts(s);
    hide WakingInv, DoDeliverResetAck;
    var s' := DoDeliverResetAck(s);
    AckForgetsNobody(s, s');
    AckIs(s);
    hide Drains, Nearer, Unheld, Apply, Enabled;
    AdvancesBy(s, DeliverResetAck, s');
  }

  lemma AckNet(s: Sys)
    requires Shape(s) && ResetAck in s.net && s.stage == Resetting
    ensures var s' := DoDeliverResetAck(s);
      && (forall c: Core :: Reset(c) in s.net <==> Reset(c) in s'.net)
      && (s'.stage == Idle || (s'.stage == Resetting && |s'.net| == |s.net| - 1))
  {
  }

  /** As long as the event is not at rest, something can be delivered; wakes go first, so that nobody is lost. */
  lemma NextDelivery(s: Sys) returns (step: Step)
    requires WakingInv(s) && Unheld(s) && !(s.stage == Idle && Quiet(s))
    ensures Advances(s, step)
  {
    if c: Core :| c < Cores(s) && Wake(c) in s.net {
      step := DeliverWake(c);
      WakeAdvances(s, c);
    } else if d :| 0 <= d < Cores(s) && s.completing[d] > 0 {
      step := DeliverCompletion(d, s.completing[d]);
      CompletionAdvances(s, d);
    } else if s.stage == Active {
      step := DeliverEnter;
      EntryAdvances(s);
    } else if c: Core :| c < Cores(s) && Reset(c) in s.net {
      step := DeliverReset(c);
      ResetAdvances(s, c);
    } else {
      step := DeliverResetAck;
      MissingAck(s);
      AckAdvances(s);
    }
  }

  lemma MissingAck(s: Sys)
    requires WakingInv(s) && s.stage != Active && !(s.stage == Idle && Quiet(s))
    requires forall c: Core :: c < Cores(s) ==> Reset(c) !in s.net && Wake(c) !in s.net
    ensures Enabled(s, DeliverResetAck)
  {
    hide Lists, Wakes, Waiters, ResetsInStep;
    assert ToReset(s) == {};
  }

  /** Everything in flight is delivered: the phase ends, and everybody whom a wake will find is woken. */
  lemma {:induction false} Settle(s: Sys) returns (steps: seq<Step>, s': Sys)
    requires WakingInv(s) && Unheld(s) && Shape(s)
    ensures Run(s, steps, s') && AllDeliver(steps) && WakingInv(s') && Drains(s, s')
    ensures s'.stage == Idle && Quiet(s') && Unheld(s')
    decreases Rank(s.stage), Load(s, Cores(s)), |ToReset(s)|, |s.net|
  {
    if s.stage == Idle && Quiet(s) {
      steps, s' := [], s;
      ListsDrain(s, s);
    } else {
      var step := NextDelivery(s);
      WakeStepInv(s, step);
      steps, s' := SettleOn(s, step, Apply(s, step));
    }
  }

  lemma {:induction false} SettleOn(s: Sys, step: Step, s1: Sys) returns (steps: seq<Step>, s': Sys)
    requires Shape(s) && Shape(s1) && Enabled(s, step) && Actor(step) == None && s1 == Apply(s, step)
    requires WakingInv(s1) && Unheld(s1) && Drains(s, s1) && Nearer(s, s1)
    ensures Run(s, steps, s') && AllDeliver(steps) && WakingInv(s') && Drains(s, s')
    ensures s'.stage == Idle && Quiet(s') && Unheld(s')
    decreases Rank(s.stage), Load(s, Cores(s)), |ToReset(s)|, |s.net|, 0
  {
    hide WakingInv, Enabled, Apply, Drains, Unheld, Quiet, Run, Load, ToReset, Shape;
    var rest: seq<Step>;
    rest, s' := Settle(s1);
    hide Nearer;
    DrainsTrans(s, s1, s');
    RunCons(s, step, rest, s');
    steps := [step] + rest;
  }

  /** At rest nobody is left whom a wake would find. */
  lemma NobodyServed(s: Sys, t: Task, c: Core)
    requires WakingInv(s) && s.stage == Idle && Quiet(s)
    ensures !Served(s, t, c)
  {
  }

  /**
   Whenever no task holds work, delivering what is in flight ends the phase: the event is
   at rest, and every waiter that is captured, or is listed on a core whose reset is
   still to come, has been woken.
   */
  lemma PhaseEnds(n: nat, s: Sys) returns (steps: seq<Step>, s': Sys)
    requires n >= 1 && Reachable(n, s) && Unheld(s)
    ensures Run(s, steps, s') && AllDeliver(steps) && s'.stage == Idle && Quiet(s')
    ensures forall t, c :: Served(s, t, c) ==> t !in s'.blocked
  {
    WakeReachableInv(n, s);
    steps, s' := Settle(s);
    forall t, c | Served(s, t, c) ensures t !in s'.blocked {
      NobodyServed(s', t, c);
    }
  }

  // ---------- Exactly which calls to wait come back ----------

  /**
   Will the call of task t come back?  Its question is unanswered; or the answer lets it
   go; or it is, or will be, suspended on a list that a wake is going to find.
   */
  predicate WillReturn(s: Sys, t: Task) {
    t !in s.blocked ||
    match s.blocked[t]
    case Probing(c) => true
    case Probed(c, co) => co <= 0 || Ahead(s, c)
    case OnCv(c) => Served(s, t, c)
    case _ => false
  }

  /** Some run that only delivers what is in flight brings task t back. */
  ghost predicate CanReturn(s: Sys, t: Task) {
    exists steps, s' :: Run(s, steps, s') && AllDeliver(steps) && t !in s'.blocked
  }

  lemma ReturnsLater(s: Sys, steps: seq<Step>, s1: Sys, t: Task)
    requires Run(s, steps, s1) && AllDeliver(steps) && CanReturn(s1, t)
    ensures CanReturn(s, t)
  {
    var more, s2 :| Run(s1, more, s2) && AllDeliver(more) && t !in s2.blocked;
    hide Run;
    RunConcat(s, steps, s1, more, s2);
    assert AllDeliver(steps + more);
  }

  lemma ReturnsAtOnce(s: Sys, step: Step, t: Task)
    requires Enabled(s, step) && Actor(step) == None && t !in Apply(s, step).blocked
    ensures CanReturn(s, t)
  {
    hide Enabled, Apply;
    RunOne(s, step);
    assert AllDeliver([step]);
  }

  lemma ServedReturns(s: Sys, t: Task, c: Core)
    requires WakingInv(s) && Unheld(s) && Served(s, t, c)
    ensures CanReturn(s, t)
  {
    var steps, s' := Settle(s);
    NobodyServed(s', t, c);
    hide Run, WakingInv;
    assert t !in s'.blocked;
  }

  lemma AskedAgain(s: Sys, t: Task)
    requires WakingInv(s) && s.stage == Idle && t in s.blocked && s.blocked[t].Probing? && s.blocked[t].at < Cores(s)
    ensures CanReturn(s, t)
  {
    hide Lists, Wakes, Waiters, ResetsInStep;
    assert Enabled(s, DeliverProbe(t));
    ProbeIsAnswered(s, t);
    var s1 := Apply(s, DeliverProbe(t));
    assert Enabled(s1, DeliverProbed(t)) && t !in Apply(s1, DeliverProbed(t)).blocked;
    hide WakingInv, Inv, Run, CanReturn, Enabled, Apply;
    ReturnsAtOnce(s1, DeliverProbed(t), t);
    RunOne(s, DeliverProbe(t));
    ReturnsLater(s, [DeliverProbe(t)], s1, t);
  }

  lemma ProbingReturns(s: Sys, t: Task)
    requires WakingInv(s) && Unheld(s) && Placed(s) && t in s.blocked && s.blocked[t].Probing?
    ensures CanReturn(s, t)
  {
    var steps, s1 := Settle(s);
    assert t in s1.blocked && s1.blocked[t] == s.blocked[t];
    AskedAgain(s1, t);
    hide WakingInv, Run, CanReturn, Drains, Unheld, Quiet;
    ReturnsLater(s, steps, s1, t);
  }

  /** Whoever is suspended while a reset is still to come will be found. */
  lemma SuspendedServed(s: Sys, t: Task, c: Core)
    requires Shape(s) && c < Cores(s) && Ahead(s, c)
    ensures var s' := SuspendOn(s, t, c); Served(s', t, c) && s'.held == s.held && Shape(s')
  {
    assert SuspendOn(s, t, c).locals[c].cv[0] == t;
  }

  lemma AnswerSuspends(s: Sys, t: Task)
    requires Shape(s) && t in s.blocked && s.blocked[t].Probed? && s.blocked[t].co > 0 && s.blocked[t].at < Cores(s)
    ensures Enabled(s, DeliverProbed(t)) && Apply(s, DeliverProbed(t)) == SuspendOn(s, t, s.blocked[t].at)
  {
    hide SuspendOn;
  }

  lemma SuspendedReturns(s: Sys, t: Task)
    requires WakingInv(s) && Unheld(s) && t in s.blocked && s.blocked[t].Probed? && s.blocked[t].at < Cores(s)
    requires s.blocked[t].co > 0 && Ahead(s, s.blocked[t].at)
    ensures CanReturn(s, t)
  {
    var c := s.blocked[t].at;
    AnswerSuspends(s, t);
    WakeStepInv(s, DeliverProbed(t));
    SuspendedServed(s, t, c);
    var s1 := SuspendOn(s, t, c);
    hide WakingInv, CanReturn, Apply, Enabled, SuspendOn, Served, Run;
    ServedReturns(s1, t, c);
    RunOne(s, DeliverProbed(t));
    ReturnsLater(s, [DeliverProbed(t)], s1, t);
  }

  lemma ProbedReturns(s: Sys, t: Task)
    requires WakingInv(s) && Unheld(s) && Placed(s) && t in s.blocked && s.blocked[t].Probed? && WillReturn(s, t)
    ensures CanReturn(s, t)
  {
    if s.blocked[t].co <= 0 {
      hide WakingInv;
      ReturnsAtOnce(s, DeliverProbed(t), t);
    } else {
      SuspendedReturns(s, t);
    }
  }

  lemma WillReturnReturns(s: Sys, t: Task)
    requires WakingInv(s) && Unheld(s) && Placed(s) && WillReturn(s, t)
    ensures CanReturn(s, t)
  {
    hide WakingInv, CanReturn;
    if t !in s.blocked {
      Already(s, t);
    } else {
      match s.blocked[t]
      case Probing(c) => ProbingReturns(s, t);
      case Probed(c, co) => ProbedReturns(s, t);
      case OnCv(c) => ServedReturns(s, t, c);
    }
  }

  lemma Already(s: Sys, t: Task)
    requires t !in s.blocked
    ensures CanReturn(s, t)
  {
    assert Run(s, [], s) && AllDeliver([]);
  }

  /** Task t is in wait, and nothing in flight will bring it back. */
  ghost predicate Hopeless(s: Sys, t: Task) {
    InWait(s, t) && s.blocked[t].at < Cores(s) && !WillReturn(s, t)
  }

  /** Without an enroll no phase opens, and resets are only sent at the end of one. */
  lemma NotAhead(s: Sys, step: Step, c: Core)
    requires Shape(s) && Stages(s) && Enabled(s, step) && Actor(step) == None && !Ahead(s, c)
    ensures !Ahead(Apply(s, step), c)
  {
    match step
    case DeliverCancelled(t) => FinishKeeps(s, t, s.blocked[t].at, s.blocked[t].co);
    case DeliverEnter => assert false;
    case DeliverResetAck => if c < Cores(s) { AckNotAhead(s, c); } else { AckNotAhead(s, c); }
    case DeliverCompletion(d, k) => CompletionNet(s, d, k);
    case _ => OtherNotAhead(s, step, c);
  }

  lemma AckNotAhead(s: Sys, c: Core)
    requires Shape(s) && !Ahead(s, c)
    ensures !Ahead(DoDeliverResetAck(s), c)
  {
  }

  lemma OtherNotAhead(s: Sys, step: Step, c: Core)
    requires Enabled(s, step) && Actor(step) == None && !Ahead(s, c)
    requires !step.DeliverCancelled? && !step.DeliverEnter? && !step.DeliverResetAck? && !step.DeliverCompletion?
    ensures !Ahead(Apply(s, step), c)
  {
  }

  lemma HopelessProbed(s: Sys, t: Task)
    requires Shape(s) && Lists(s) && Hopeless(s, t) && Enabled(s, DeliverProbed(t))
    ensures Hopeless(Apply(s, DeliverProbed(t)), t)
  {
    var c, s' := s.blocked[t].at, Apply(s, DeliverProbed(t));
    assert t !in s.locals[c].waking;
    assert s' == SuspendOn(s, t, c);
  }

  lemma HopelessWake(s: Sys, t: Task, d: Core)
    requires Shape(s) && Lists(s) && Hopeless(s, t) && Enabled(s, DeliverWake(d))
    ensures Hopeless(Apply(s, DeliverWake(d)), t)
  {
    assert t !in s.locals[d].waking;
  }

  lemma HopelessReset(s: Sys, t: Task, d: Core)
    requires Shape(s) && Lists(s) && Hopeless(s, t) && Enabled(s, DeliverReset(d)) && s.blocked[t].OnCv?
    ensures Hopeless(Apply(s, DeliverReset(d)), t)
  {
    var s' := Apply(s, DeliverReset(d));
    assert s'.locals[d].waking == s.locals[d].cv && s'.locals[d].cv == [];
    assert d == s.blocked[t].at ==> t !in s.locals[d].cv;
  }

  lemma HopelessListed(s: Sys, s': Sys, t: Task)
    requires SameLists(s, s') && Hopeless(s, t) && t in s'.blocked && s'.blocked[t] == s.blocked[t]
    requires !Ahead(s, s.blocked[t].at) ==> !Ahead(s', s.blocked[t].at)
    ensures Hopeless(s', t)
  {
  }

  lemma HopelessOther(s: Sys, step: Step, t: Task)
    requires Shape(s) && Stages(s) && Enabled(s, step) && Actor(step) == None && Hopeless(s, t) && LeavesLists(step)
    ensures Hopeless(Apply(s, step), t)
  {
    var c := s.blocked[t].at;
    StepLeavesLists(s, step);
    if !Ahead(s, c) { NotAhead(s, step, c); }
    NotMoved(s, step, t);
    BlockedElsewhere(s, step, t);
    hide Stages, Enabled, Apply, SameLists, Hopeless, Ahead;
    HopelessListed(s, Apply(s, step), t);
  }

  lemma NotMoved(s: Sys, step: Step, t: Task)
    requires Enabled(s, step) && Hopeless(s, t) && LeavesLists(step)
    ensures InWait(s, t) && !MovesWaiter(step, t)
  {
  }

  lemma SuspendHopeless(s: Sys, u: Task, c: Core, t: Task)
    requires Shape(s) && c < Cores(s) && u != t && Hopeless(s, t)
    ensures Hopeless(SuspendOn(s, u, c), t)
  {
    var s' := SuspendOn(s, u, c);
    assert forall x :: x in s'.locals[c].cv ==> x == u || x in s.locals[c].cv;
  }

  lemma OtherProbed(s: Sys, u: Task, t: Task)
    requires Shape(s) && Lists(s) && Enabled(s, DeliverProbed(u)) && u != t && Hopeless(s, t)
    ensures Hopeless(Apply(s, DeliverProbed(u)), t)
  {
    if s.blocked[u].co > 0 {
      hide Lists;
      SuspendHopeless(s, u, s.blocked[u].at, t);
      hide SuspendOn, Hopeless;
    }
  }

  lemma StepHopeless(s: Sys, step: Step, t: Task)
    requires WakingInv(s) && Enabled(s, step) && Actor(step) == None && Hopeless(s, t)
    ensures Hopeless(Apply(s, step), t)
  {
    hide Counting, Causality, Wakes, Waiters, ResetsInStep;
    match step
    case DeliverProbed(u) => if u == t { HopelessProbed(s, t); } else { OtherProbed(s, u, t); }
    case DeliverWake(d) => HopelessWake(s, t, d);
    case DeliverReset(d) => if s.blocked[t].OnCv? { HopelessReset(s, t, d); } else { ResetProbed(s, t, d); }
    case _ => HopelessOther(s, step, t);
  }

  lemma ResetProbed(s: Sys, t: Task, d: Core)
    requires Shape(s) && Hopeless(s, t) && Enabled(s, DeliverReset(d)) && s.blocked[t].Probed?
    ensures Hopeless(Apply(s, DeliverReset(d)), t)
  {
  }

  lemma {:induction false} HopelessForever(s: Sys, steps: seq<Step>, s': Sys, t: Task)
    requires WakingInv(s) && Hopeless(s, t) && Run(s, steps, s') && AllDeliver(steps)
    ensures Hopeless(s', t)
    decreases |steps|
  {
    if steps != [] {
      StepHopeless(s, steps[0], t);
      WakeStepInv(s, steps[0]);
      hide WakingInv, Hopeless, Enabled, Apply;
      HopelessForever(Apply(s, steps[0]), steps[1..], s', t);
    }
  }

  /**
   Exactly which calls to wait come back once no task holds work.  Delivering what is in
   flight can bring a task in wait back if and only if its question is unanswered, or its
   answer lets it go or finds a reset of its core still to come, or it is suspended on a
   list that such a reset, or a wake, will find.
   */
  lemma WaitReturnsIff(n: nat, s: Sys, t: Task)
    requires n >= 1 && Reachable(n, s) && Unheld(s) && InWait(s, t)
    ensures CanReturn(s, t) <==> WillReturn(s, t)
  {
    WakeReachableInv(n, s);
    ReachableAll(n, s);
    if WillReturn(s, t) {
      WillReturnReturns(s, t);
    } else if CanReturn(s, t) {
      var steps, s' :| Run(s, steps, s') && AllDeliver(steps) && t !in s'.blocked;
      HopelessForever(s, steps, s', t);
      assert false;
    }
  }

  lemma SuspendedBlocked(s: Sys, t: Task, c: Core)
    requires Shape(s) && c < Cores(s)
    ensures t in SuspendOn(s, t, c).blocked && SuspendOn(s, t, c).blocked[t] == OnCv(c)
  {
  }

  lemma WaitsServed(s: Sys, t: Task, c: Core)
    requires Enabled(s, WaitStep(t, c)) && Ahead(s, c) && (s.locals[c].inProgress || (c == MASTER && s.locals[MASTER].coresOut > 0))
    ensures WillReturn(Apply(s, WaitStep(t, c)), t)
  {
    assert Apply(s, WaitStep(t, c)) == SuspendOn(s, t, c);
    SuspendedServed(s, t, c);
    SuspendedBlocked(s, t, c);
    hide SuspendOn, Served, Apply, Enabled;
  }

  lemma WaitsAsking(s: Sys, t: Task, c: Core)
    requires Enabled(s, WaitStep(t, c)) && !(s.locals[c].inProgress || (c == MASTER && s.locals[MASTER].coresOut > 0))
    ensures WillReturn(Apply(s, WaitStep(t, c)), t)
  {
    hide SuspendOn, Served;
  }

  /**
   A call that starts while the event is anywhere will come back: whatever wait does at
   once, it is a question, or a place on a list that a reset will find.
   */
  lemma AskedWillReturn(n: nat, s: Sys, t: Task, c: Core)
    requires n >= 1 && Reachable(n, s) && Enabled(s, WaitStep(t, c))
    ensures WillReturn(Apply(s, WaitStep(t, c)), t)
  {
    ReachableInv(n, s);
    ReachableCalm(n, s);
    OutIsRunning(s);
    hide Inv, Lists, Reachable;
    if s.locals[c].inProgress || (c == MASTER && s.locals[MASTER].coresOut > 0) {
      assert Ahead(s, c);
      hide Calm;
      WaitsServed(s, t, c);
    } else {
      hide Calm;
      WaitsAsking(s, t, c);
    }
  }
}
