/**
 What the GlobalCompletionEvent promises, over every run of the protocol:
 detection, the barrier counter, and waking.
 */
module GceTheorems {
  import opened Basics
  import opened GceCore
  import opened GceProtocol
  import opened GceRuns
  import opened GceSafety

  // ---------- What the larger steps leave alone ----------

  /** The rest of enroll only touches the event flag, the task itself and the outcome of the CHECKs. */
  lemma FinishKeeps(s: Sys, t: Task, c: Core, co: int)
    requires Shape(s) && c < Cores(s)
    ensures var s' := FinishEnroll(s, t, c, co);
      && s' == s.(locals := s'.locals, blocked := s'.blocked, opener := s'.opener, failed := s'.failed)
      && Shape(s') && Cores(s') == Cores(s) && s'.blocked - {t} == s.blocked - {t}
      && (forall d :: 0 <= d < Cores(s) ==> s'.locals[d] == s.locals[d].(inProgress := s'.locals[d].inProgress))
      && (t in s'.blocked ==> s'.blocked[t].Broadcasting? && s'.blocked[t].at == c)
  {
    hide CoreSet;
  }

  /** What an enroll of task t on core c leaves alone; `first` says that it is the core's first work. */
  ghost predicate EnrollFrame(s: Sys, s': Sys, t: Task, c: Core, inc: nat, via: Core, first: bool) {
    && Shape(s) && Shape(s') && Cores(s') == Cores(s) && c < Cores(s)
    && s'.net == s.net && s'.completing == s.completing && s'.detected == s.detected
    && s'.resets == s.resets && s'.captured == s.captured && s'.since == s.since
    && s'.blocked - {t} == s.blocked && (t in s'.blocked ==> InEnroll(s'.blocked, t) && s'.blocked[t].at == c)
    && s'.held == s.held[c := s.held[c][t := s.held[c][t] + inc]]
    && s'.stage == (if first && s.stage == Idle then Active else s.stage)
    && s'.rogue == (if first && !MayEnroll(s, t, c, via) then s.rogue + {c} else s.rogue)
    && s'.rank == (if first then s.rank[c := s.clock] else s.rank) && s'.clock >= s.clock
    && s'.locals[MASTER].coresOut >= s.locals[MASTER].coresOut
    && (forall d :: 0 <= d < Cores(s) ==>
          && s'.locals[d].count == s.locals[d].count + (if d == c then inc else 0)
          && s'.locals[d].cv == s.locals[d].cv && s'.locals[d].waking == s.locals[d].waking)
  }

  lemma FirstKeeps(s: Sys, t: Task, c: Core, inc: nat, via: Core, blocked: map<Task, Block>)
    requires Shape(s) && c < Cores(s) && blocked - {t} == s.blocked
    requires t in blocked ==> InEnroll(blocked, t) && blocked[t].at == c
    ensures EnrollFrame(s, FirstWork(s, t, c, inc, via).(blocked := blocked), t, c, inc, via, true)
  {
    hide MayEnroll;
  }

  lemma MasterFirstKeeps(s: Sys, t: Task, inc: nat, via: Core)
    requires Shape(s) && t !in s.blocked
    ensures var s1 := CancelAtMaster(FirstWork(s, t, MASTER, inc, via), MASTER);
      EnrollFrame(s, FinishEnroll(s1, t, MASTER, s.locals[MASTER].coresOut + 1), t, MASTER, inc, via, true)
  {
    var s0 := FirstWork(s, t, MASTER, inc, via);
    var s1 := CancelAtMaster(s0, MASTER);
    assert s.blocked - {t} == s.blocked;
    FirstKeeps(s, t, MASTER, inc, via, s.blocked);
    assert s0 == s0.(blocked := s.blocked);
    FinishKeeps(s1, t, MASTER, s.locals[MASTER].coresOut + 1);
    var s2 := FinishEnroll(s1, t, MASTER, s.locals[MASTER].coresOut + 1);
    assert s2 == s0.(locals := s2.locals, blocked := s2.blocked, opener := s2.opener, failed := s2.failed, counted := s2.counted);
    hide FinishEnroll, MayEnroll, FirstWork;
    StillFrame(s, s0, s2, t, MASTER, inc, via);
  }

  lemma StillFrame(s: Sys, s0: Sys, s2: Sys, t: Task, c: Core, inc: nat, via: Core)
    requires EnrollFrame(s, s0, t, c, inc, via, true) && Shape(s2) && Cores(s2) == Cores(s0)
    requires s2 == s0.(locals := s2.locals, blocked := s2.blocked, opener := s2.opener, failed := s2.failed, counted := s2.counted)
    requires forall d :: 0 <= d < Cores(s) ==>
      s2.locals[d] == s0.locals[d].(inProgress := s2.locals[d].inProgress, coresOut := s2.locals[d].coresOut)
    requires s2.locals[MASTER].coresOut >= s0.locals[MASTER].coresOut
    requires s2.blocked - {t} == s.blocked && (t in s2.blocked ==> InEnroll(s2.blocked, t) && s2.blocked[t].at == c)
    ensures EnrollFrame(s, s2, t, c, inc, via, true)
  {
    hide MayEnroll;
  }

  lemma MoreKeeps(s: Sys, t: Task, c: Core, inc: nat, via: Core)
    requires Shape(s) && c < Cores(s) && t !in s.blocked
    ensures EnrollFrame(s, MoreWork(s, t, c, inc), t, c, inc, via, false)
  {
    assert s.blocked - {t} == s.blocked;
  }

  /** An enroll only adds work on its core, and blocks no other task. */
  lemma EnrollKeeps(s: Sys, t: Task, c: Core, inc: nat, via: Core)
    requires Shape(s) && c < Cores(s) && t !in s.blocked
    ensures EnrollFrame(s, DoEnroll(s, t, c, inc, via), t, c, inc, via, inc != 0 && s.locals[c].count == 0)
  {
    if inc == 0 {
      assert s.held[c][t := s.held[c][t] + inc] == s.held[c] && s.blocked - {t} == s.blocked;
      assert s.held[c := s.held[c]] == s.held;
    } else if s.locals[c].count != 0 {
      MoreKeeps(s, t, c, inc, via);
      hide EnrollFrame;
    } else if c == MASTER {
      MasterFirstKeeps(s, t, inc, via);
      hide EnrollFrame, FinishEnroll, MayEnroll;
    } else {
      var blocked := s.blocked[t := Cancelling(c)];
      assert blocked - {t} == s.blocked;
      FirstKeeps(s, t, c, inc, via, blocked);
      hide EnrollFrame, MayEnroll;
    }
  }

  /** Entries and acknowledgements only touch the master's counters and what is in flight. */
  lemma MasterKeeps(s: Sys)
    requires Shape(s)
    ensures EntryFrame(s, DoDeliverEnter(s)) && EntryFrame(s, DoDeliverResetAck(s))
  {
    hide ResetToAll, WakeToAll;
  }

  ghost predicate EntryFrame(s: Sys, s': Sys) {
    && s' == s.(locals := s'.locals, net := s'.net, failed := s'.failed, stage := s'.stage, detected := s'.detected)
    && Shape(s) && Shape(s') && Cores(s') == Cores(s)
    && (forall d :: 0 <= d < Cores(s) ==>
          s'.locals[d] == s.locals[d].(coresOut := s'.locals[d].coresOut, wakingOut := s'.locals[d].wakingOut))
  }

  // ---------- Waiter lists ----------

  /** The lists and the reset history of s' are those of s, and the same tasks are suspended. */
  ghost predicate SameLists(s: Sys, s': Sys) {
    && Shape(s) && Shape(s') && Cores(s') == Cores(s)
    && (forall c :: 0 <= c < Cores(s) ==> s'.locals[c].cv == s.locals[c].cv && s'.locals[c].waking == s.locals[c].waking)
    && s'.resets == s.resets && s'.captured == s.captured && s'.since == s.since
    && (forall t :: (t in s.blocked && s.blocked[t].OnCv?) || (t in s'.blocked && s'.blocked[t].OnCv?) ==>
          t in s.blocked && t in s'.blocked && s'.blocked[t] == s.blocked[t])
  }

  /** The waiter lists are fine as long as nobody touches them or wakes a suspended task. */
  lemma KeepLists(s: Sys, s': Sys)
    requires SameLists(s, s') && Lists(s)
    ensures Lists(s')
  {
    forall c, t | 0 <= c < Cores(s') && t in s'.locals[c].cv ensures t in s'.blocked && s'.blocked[t] == OnCv(c) {
      assert t in s.locals[c].cv;
    }
    forall c, t | 0 <= c < Cores(s') && t in s'.locals[c].waking ensures t in s'.blocked && s'.blocked[t] == OnCv(c) {
      assert t in s.locals[c].waking;
    }
  }

  lemma NoDupCons(t: Task, xs: seq<Task>)
    requires NoDup(xs) && t !in xs
    ensures NoDup([t] + xs)
  {
  }

  lemma SuspendLists(s: Sys, t: Task, c: Core)
    requires Shape(s) && Lists(s) && c < Cores(s)
    requires t in s.blocked ==> s.blocked[t].Probed?
    ensures Lists(SuspendOn(s, t, c))
  {
    var s' := SuspendOn(s, t, c);
    var list := s.locals[c].cv + s.locals[c].waking;
    assert t !in s.locals[c].cv && t !in s.locals[c].waking && t !in list;
    assert s'.locals[c].cv + s'.locals[c].waking == [t] + list;
    NoDupCons(t, list);
    forall d, u | 0 <= d < Cores(s') && u in s'.locals[d].cv ensures u in s'.blocked && s'.blocked[u] == OnCv(d) {
      assert (u == t && d == c) || u in s.locals[d].cv;
    }
    forall d, u | 0 <= d < Cores(s') && u in s'.locals[d].waking ensures u in s'.blocked && s'.blocked[u] == OnCv(d) {
      assert u in s.locals[d].waking;
    }
  }

  lemma ResetLists(s: Sys, c: Core)
    requires Shape(s) && Lists(s) && c < Cores(s)
    ensures Lists(DoDeliverReset(s, c))
  {
    var s' := DoDeliverReset(s, c);
    var cv := s.locals[c].cv;
    forall d | 0 <= d < Cores(s') ensures NoDup(s'.locals[d].cv + s'.locals[d].waking) {
      NoDupPrefix(cv, s.locals[c].waking);
      assert [] + cv == cv;
    }
    hide NoDup;
    forall d, u | 0 <= d < Cores(s') && u in s'.locals[d].waking ensures u in s'.blocked && s'.blocked[u] == OnCv(d) {
      assert if d == c then u in s.locals[d].cv else u in s.locals[d].waking;
    }
    forall d, u | 0 <= d < Cores(s') && u in s'.locals[d].cv ensures u in s'.blocked && s'.blocked[u] == OnCv(d) {
      assert u in s.locals[d].cv;
    }
  }

  lemma NoDupPrefix(xs: seq<Task>, ys: seq<Task>)
    requires NoDup(xs + ys)
    ensures NoDup(xs)
  {
    forall i, j | 0 <= i < j < |xs| ensures xs[i] != xs[j] {
      assert (xs + ys)[i] == xs[i] && (xs + ys)[j] == xs[j];
    }
  }

  /** A task being woken is on no other list. */
  lemma ListsDisjoint(xs: seq<Task>, ys: seq<Task>)
    requires NoDup(xs + ys)
    ensures forall t :: t in xs ==> t !in ys
  {
    forall t | t in xs ensures t !in ys {
      var i :| 0 <= i < |xs| && xs[i] == t;
      forall j | 0 <= j < |ys| ensures ys[j] != t {
        assert (xs + ys)[i] == t && (xs + ys)[|xs| + j] == ys[j];
      }
    }
  }

  lemma WakeLists(s: Sys, c: Core)
    requires Shape(s) && Lists(s) && c < Cores(s)
    ensures Lists(DoDeliverWake(s, c))
  {
    var s' := DoDeliverWake(s, c);
    var cv, waking := s.locals[c].cv, s.locals[c].waking;
    ListsDisjoint(cv, waking);
    forall d, t | 0 <= d < Cores(s') && t in s'.locals[d].cv ensures t in s'.blocked && s'.blocked[t] == OnCv(d) {
      assert t in s.locals[d].cv && s.blocked[t] == OnCv(d);
    }
    forall d, t | 0 <= d < Cores(s') && t in s'.locals[d].waking ensures t in s'.blocked && s'.blocked[t] == OnCv(d) {
      assert d != c && t in s.locals[d].waking && s.blocked[t] == OnCv(d);
      assert t !in waking;
    }
    assert s'.locals[c].cv + s'.locals[c].waking == (cv + waking)[..|cv|];
  }

  /** Does a step leave every waiter list and every suspended task alone? */
  predicate LeavesLists(step: Step) {
    !step.DeliverReset? && !step.DeliverWake? && !step.WaitStep? && !step.DeliverProbed?
  }

  lemma FinishLeavesLists(s: Sys, t: Task, c: Core, co: int)
    requires Shape(s) && c < Cores(s)
    requires t in s.blocked ==> !s.blocked[t].OnCv?
    ensures SameLists(s, FinishEnroll(s, t, c, co))
  {
    FinishKeeps(s, t, c, co);
    SameBut(s, FinishEnroll(s, t, c, co), t);
    hide FinishEnroll;
  }

  lemma SameBut(s: Sys, s': Sys, t: Task)
    requires s'.blocked - {t} == s.blocked - {t}
    ensures forall w :: w != t ==> (w in s.blocked <==> w in s'.blocked) && (w in s.blocked ==> s'.blocked[w] == s.blocked[w])
  {
    forall w | w != t ensures (w in s.blocked <==> w in s'.blocked) && (w in s.blocked ==> s'.blocked[w] == s.blocked[w]) {
      assert w in s.blocked ==> w in s.blocked - {t} && (s.blocked - {t})[w] == s.blocked[w];
      assert w in s'.blocked ==> w in s'.blocked - {t} && (s'.blocked - {t})[w] == s'.blocked[w];
    }
  }

  lemma SameListsTrans(s: Sys, s1: Sys, s2: Sys)
    requires SameLists(s, s1) && SameLists(s1, s2)
    ensures SameLists(s, s2)
  {
  }

  lemma EnrollLeavesLists(s: Sys, t: Task, c: Core, inc: nat, via: Core)
    requires Shape(s) && c < Cores(s) && t !in s.blocked
    ensures SameLists(s, DoEnroll(s, t, c, inc, via))
  {
    EnrollKeeps(s, t, c, inc, via);
    assert s.blocked - {t} == s.blocked;
    SameBut(s, DoEnroll(s, t, c, inc, via), t);
    hide DoEnroll;
  }

  lemma CancelLeavesLists(s: Sys, t: Task)
    requires t in s.blocked && s.blocked[t].at < Cores(s) && Shape(s)
    ensures s.blocked[t].Cancelling? ==> SameLists(s, DoDeliverCancel(s, t))
    ensures s.blocked[t].Cancelled? ==> SameLists(s, DoDeliverCancelled(s, t))
  {
    if s.blocked[t].Cancelled? {
      FinishLeavesLists(s, t, s.blocked[t].at, s.blocked[t].co);
    }
  }

  lemma SpreadLeavesLists(s: Sys, t: Task, d: Core)
    requires Enabled(s, DeliverProgress(t, d))
    ensures SameLists(s, DoDeliverProgress(s, t, d))
  {
  }

  lemma ProgressAckLeavesLists(s: Sys, t: Task)
    requires Enabled(s, DeliverProgressAck(t))
    ensures SameLists(s, DoDeliverProgressAck(s, t))
  {
  }

  lemma CompleteOnLeavesLists(s: Sys, d: Core, k: nat)
    requires Shape(s) && d < Cores(s)
    ensures SameLists(s, CompleteOn(s, d, k))
  {
  }

  lemma CompleteLeavesLists(s: Sys, t: Task, c: Core, d: Core, k: nat)
    requires Enabled(s, CompleteStep(t, c, d, k))
    ensures SameLists(s, DoComplete(s, t, c, d, k))
  {
    if c == d {
      var s1 := s.(held := s.held[d := s.held[d][t := s.held[d][t] - k]]);
      SentLeavesLists(s, s1.held, s.completing);
      CompleteOnLeavesLists(s1, d, k);
      hide SameLists, CompleteOn;
      SameListsTrans(s, s1, CompleteOn(s1, d, k));
    } else {
      SentLeavesLists(s, s.held[d := s.held[d][t := s.held[d][t] - k]], s.completing[d := s.completing[d] + k]);
    }
  }

  lemma SentLeavesLists(s: Sys, held: seq<multiset<Task>>, completing: seq<nat>)
    requires Shape(s) && |held| == |completing| == Cores(s)
    ensures SameLists(s, s.(held := held, completing := completing))
  {
  }

  lemma CompletionLeavesLists(s: Sys, d: Core, k: nat)
    requires Enabled(s, DeliverCompletion(d, k))
    ensures SameLists(s, DoDeliverCompletion(s, d, k))
  {
    var s1 := s.(completing := s.completing[d := s.completing[d] - k]);
    SentLeavesLists(s, s.held, s1.completing);
    CompleteOnLeavesLists(s1, d, k);
    hide SameLists, CompleteOn;
    SameListsTrans(s, s1, CompleteOn(s1, d, k));
  }

  lemma MasterLeavesLists(s: Sys)
    requires Shape(s)
    ensures SameLists(s, DoDeliverEnter(s)) && SameLists(s, DoDeliverResetAck(s))
  {
    MasterKeeps(s);
    hide DoDeliverEnter, DoDeliverResetAck;
  }

  lemma TaskLeavesLists(s: Sys, step: Step)
    requires Enabled(s, step) && (step.HandOff? || step.DeliverProbe?)
    ensures SameLists(s, Apply(s, step))
  {
  }

  lemma StepLeavesLists(s: Sys, step: Step)
    requires Enabled(s, step) && LeavesLists(step)
    ensures SameLists(s, Apply(s, step))
  {
    match step
    case EnrollStep(t, c, inc, via) => EnrollLeavesLists(s, t, c, inc, via);
    case DeliverCancel(t) => CancelLeavesLists(s, t);
    case DeliverCancelled(t) => CancelLeavesLists(s, t);
    case DeliverProgress(t, d) => SpreadLeavesLists(s, t, d);
    case DeliverProgressAck(t) => ProgressAckLeavesLists(s, t);
    case CompleteStep(t, c, d, k) => CompleteLeavesLists(s, t, c, d, k);
    case DeliverCompletion(d, k) => CompletionLeavesLists(s, d, k);
    case DeliverEnter => MasterLeavesLists(s);
    case DeliverResetAck => MasterLeavesLists(s);
    case _ => TaskLeavesLists(s, step);
  }

  lemma StepLists(s: Sys, step: Step)
    requires Shape(s) && Lists(s) && Enabled(s, step)
    ensures Shape(Apply(s, step)) && Lists(Apply(s, step))
  {
    hide Lists;
    StepShape(s, step);
    match step
    case DeliverReset(c) => ResetLists(s, c);
    case DeliverWake(c) => WakeLists(s, c);
    case WaitStep(t, c) => WaitLists(s, t, c);
    case DeliverProbed(t) => ProbedLists(s, t);
    case _ =>
      StepLeavesLists(s, step);
      KeepLists(s, Apply(s, step));
  }

  lemma StepShape(s: Sys, step: Step)
    requires Enabled(s, step)
    ensures Shape(Apply(s, step)) && Cores(Apply(s, step)) == Cores(s)
  {
    if LeavesLists(step) {
      StepLeavesLists(s, step);
      hide Apply;
    }
  }

  lemma WaitLists(s: Sys, t: Task, c: Core)
    requires Shape(s) && Lists(s) && Enabled(s, WaitStep(t, c))
    ensures Lists(DoWait(s, t, c))
  {
    if s.locals[c].inProgress || c == MASTER {
      SuspendLists(s, t, c);
    } else {
      KeepLists(s, DoWait(s, t, c));
    }
  }

  lemma ProbedLists(s: Sys, t: Task)
    requires Shape(s) && Lists(s) && Enabled(s, DeliverProbed(t))
    ensures Lists(DoDeliverProbed(s, t))
  {
    if s.blocked[t].co > 0 {
      SuspendLists(s, t, s.blocked[t].at);
    } else {
      KeepLists(s, Unblock(s, t));
    }
  }

  // ---------- Every run keeps the invariant ----------

  lemma StepInv(s: Sys, step: Step)
    requires Inv(s) && Lists(s) && s.rogue == {} && Enabled(s, step)
    ensures Inv(Apply(s, step)) && Lists(Apply(s, step)) && Apply(s, step).rogue == {}
  {
    StepLists(s, step);
    StepKeeps(s, step);
    StepLawful(s, step);
  }

  /** A step that respects the rule adds no rogue core. */
  lemma StepLawful(s: Sys, step: Step)
    requires Enabled(s, step)
    ensures Apply(s, step).rogue == s.rogue
  {
    match step
    case EnrollStep(t, c, inc, via) => EnrollKeeps(s, t, c, inc, via);
    case DeliverCancelled(t) => FinishKeeps(s, t, s.blocked[t].at, s.blocked[t].co);
    case DeliverEnter => MasterKeeps(s);
    case DeliverResetAck => MasterKeeps(s);
    case CompleteStep(t, c, d, k) =>
    case DeliverCompletion(d, k) =>
    case _ => TaskLawful(s, step);
  }

  lemma TaskLawful(s: Sys, step: Step)
    requires Enabled(s, step) && !step.EnrollStep? && !step.DeliverCancelled? && !step.DeliverEnter? && !step.DeliverResetAck?
    requires !step.CompleteStep? && !step.DeliverCompletion?
    ensures Apply(s, step).rogue == s.rogue
  {
  }

  /** The invariant does not need the rule, except when the barrier is completed. */
  lemma StepKeeps(s: Sys, step: Step)
    requires Inv(s) && Lists(s) && Enabled(s, step)
    requires step.DeliverEnter? && CompletesBarrier(s.locals[MASTER]) ==> s.rogue == {}
    ensures Inv(Apply(s, step))
  {
    hide Inv;
    match step
    case EnrollStep(t, c, inc, via) => if inc != 0 { RuleAdmits(s, t, c, inc, via); EnrollInv(s, t, c, inc, via); }
    case DeliverCancel(t) => DeliverCancelInv(s, t);
    case DeliverCancelled(t) => DeliverCancelledInv(s, t);
    case DeliverProgress(t, d) => DeliverProgressInv(s, t, d);
    case DeliverProgressAck(t) => DeliverProgressAckInv(s, t);
    case HandOff(t, u, c) => HandOffInv(s, t, u, c);
    case CompleteStep(t, c, d, k) => CompleteInv(s, t, c, d, k);
    case DeliverCompletion(d, k) => DeliverCompletionInv(s, d, k);
    case DeliverEnter => if CompletesBarrier(s.locals[MASTER]) { DetectInv(s); } else { EarlierEntryInv(s); }
    case DeliverReset(c) => DeliverResetInv(s, c);
    case DeliverResetAck => DeliverResetAckInv(s);
    case DeliverWake(c) => WakeInv(s, c);
    case WaitStep(t, c) => WaitInv(s, t, c);
    case DeliverProbe(t) => ProbeInv(s, t);
    case DeliverProbed(t) => ProbedInv(s, t);
  }

  lemma {:induction false} RunInv(s: Sys, steps: seq<Step>, s': Sys)
    requires Inv(s) && Lists(s) && s.rogue == {} && Run(s, steps, s')
    ensures Inv(s') && Lists(s') && s'.rogue == {}
    decreases |steps|
  {
    if steps != [] {
      StepInv(s, steps[0]);
      RunInv(Apply(s, steps[0]), steps[1..], s');
    }
  }

  lemma ReachableInv(n: nat, s: Sys)
    requires n >= 1 && Reachable(n, s)
    ensures Inv(s) && Lists(s) && s.rogue == {}
  {
    var steps :| Run(InitSys(n), steps, s);
    InitInv(n);
    RunInv(InitSys(n), steps, s);
  }

  // ---------- Detection ----------

  /** No enrollment is outstanding anywhere: none held, none being completed, every count zero. */
  ghost predicate AllDone(s: Sys)
    requires Shape(s)
  {
    NothingHeld(s) && forall c :: 0 <= c < Cores(s) ==> s.locals[c].count == 0
  }

  /**
   Detection is sound.  In every reachable state no CHECK has failed; the entry
   that takes the barrier counter to zero is delivered only when no enrollment
   is outstanding on any core; and the same holds until every reset is done.
   */
  lemma DetectionSafety(n: nat, s: Sys)
    requires n >= 1 && Reachable(n, s)
    ensures Shape(s) && !s.failed
    ensures Enter in s.net && s.locals[MASTER].coresOut - 1 == 0 ==> AllDone(s)
    ensures forall c: Core :: Reset(c) in s.net || ResetAck in s.net ==> AllDone(s)
  {
    ReachableInv(n, s);
    if Enter in s.net && s.locals[MASTER].coresOut - 1 == 0 {
      LastEntryMeansDone(s);
    }
    if s.stage == Resetting {
      assert AllDone(s);
    }
  }

  /** Delivering k barrier entries in a row. */
  function EntrySteps(k: nat): seq<Step> {
    seq(k, _ => DeliverEnter)
  }

  /** One entry delivered when everything is done: detection, or one entry fewer. */
  lemma DeliverOneEntry(s: Sys)
    requires Inv(s) && s.rogue == {} && s.stage == Active && AllDone(s)
    ensures s.locals[MASTER].coresOut == s.net[Enter] >= 1 && Enabled(s, DeliverEnter)
    ensures Inv(DoDeliverEnter(s)) && DoDeliverEnter(s).rogue == {}
    ensures var s' := DoDeliverEnter(s);
      if s.net[Enter] == 1 then s'.stage == Resetting && s'.detected == s.detected + 1
      else s'.stage == Active && s'.detected == s.detected && Shape(s') && AllDone(s') && s'.net[Enter] == s.net[Enter] - 1
  {
    if s.opener.Some? { OpenerHolds(s); }
    assert s.counted == {};
    if CompletesBarrier(s.locals[MASTER]) { DetectInv(s); } else { EarlierEntryInv(s); }
  }

  lemma {:induction false} EntriesDetect(s: Sys) returns (s': Sys)
    requires Shape(s) && Inv(s) && s.rogue == {} && s.stage == Active && AllDone(s)
    ensures Run(s, EntrySteps(s.net[Enter]), s') && s'.stage == Resetting && s'.detected == s.detected + 1
    decreases s.net[Enter]
  {
    hide Inv, DoDeliverEnter, AllDone, Run;
    DeliverOneEntry(s);
    var k, s1 := s.net[Enter], DoDeliverEnter(s);
    assert Apply(s, DeliverEnter) == s1;
    hide Enabled, Apply;
    if k == 1 {
      s' := s1;
      RunOne(s, DeliverEnter);
      assert EntrySteps(1) == [DeliverEnter];
    } else {
      s' := EntriesDetect(s1);
      RunCons(s, DeliverEnter, EntrySteps(k - 1), s');
      assert [DeliverEnter] + EntrySteps(k - 1) == EntrySteps(k);
    }
  }

  /**
   Detection is not missed.  When every enrollment of an open phase has been
   completed, the counter equals the number of entries in flight, and delivering
   them reaches the reset broadcast.
   */
  lemma DetectionNotMissed(n: nat, s: Sys)
    requires n >= 1 && Reachable(n, s) && Shape(s) && s.stage == Active && AllDone(s)
    ensures s.locals[MASTER].coresOut == s.net[Enter] >= 1
    ensures exists s' :: Run(s, EntrySteps(s.net[Enter]), s') && s'.stage == Resetting && s'.detected == s.detected + 1
  {
    ReachableInv(n, s);
    DeliverOneEntry(s);
    var s' := EntriesDetect(s);
  }

  lemma OpenerHolds(s: Sys)
    requires Inv(s) && s.opener.Some?
    ensures exists c :: 0 <= c < Cores(s) && s.held[c] != multiset{}
  {
    var t := s.opener.value;
    if s.blocked[t].Cancelling? {
      assert IsCancelling(s.blocked, t, s.blocked[t].at) && CancelOk(s, t, s.blocked[t].at);
    }
    assert t in s.held[s.blocked[t].at];
  }

  // ---------- The barrier counter ----------

  /** The cores with work whose increment has reached the master. */
  ghost function CountedCores(s: Sys): set<Core>
    requires Shape(s)
  {
    set c | c in CoreSet(Cores(s)) && s.locals[c].count > 0 && forall t :: !IsCancelling(s.blocked, t, c)
  }

  /**
   In every reachable state the barrier counter is the number of cores with work
   whose increment has reached the master, plus the decrements in flight; so it
   is never negative.  An enroll is answered 1 only while its task opens the phase; and
   while an open phase has counter 0, only its opener holds work.
   */
  lemma CounterCounts(n: nat, s: Sys)
    requires n >= 1 && Reachable(n, s)
    ensures Shape(s)
    ensures s.locals[MASTER].coresOut == |CountedCores(s)| + s.net[Enter] >= 0
    ensures forall t :: t in s.blocked && s.blocked[t].Cancelled? && s.blocked[t].co == 1 ==> s.opener == Some(t)
    ensures s.stage == Active && s.locals[MASTER].coresOut == 0 ==>
      s.opener.Some? && forall c, t :: 0 <= c < Cores(s) && t in s.held[c] ==> t == s.opener.value
  {
    ReachableInv(n, s);
    OutIsRunning(s);
    forall c | c in s.counted ensures c in CountedCores(s) {
      forall t ensures !IsCancelling(s.blocked, t, c) {
        assert IsCancelling(s.blocked, t, c) ==> CancelOk(s, t, c);
      }
    }
    forall c | c in CountedCores(s) ensures c in s.counted {
      assert Accounted(s, c);
    }
    assert CountedCores(s) == s.counted;
  }

  // ---------- Waiting ----------

  /** From the moment the opening enroll returns until detection, wait suspends its caller on every core. */
  lemma WaitSuspends(n: nat, s: Sys, t: Task, c: Core)
    requires n >= 1 && Reachable(n, s) && s.stage == Active && s.opener == None
    requires Enabled(s, WaitStep(t, c))
    ensures t in Apply(s, WaitStep(t, c)).blocked && Apply(s, WaitStep(t, c)).blocked[t] == OnCv(c)
    ensures t in Apply(s, WaitStep(t, c)).locals[c].cv
  {
    ReachableInv(n, s);
    assert Apply(s, WaitStep(t, c)) == SuspendOn(s, t, c);
    assert t == ([t] + s.locals[c].cv)[0];
  }
}
