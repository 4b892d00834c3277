/** Concrete runs of the GlobalCompletionEvent protocol on two cores, a few steps at a time. */
module GceTwoCores {
  import opened Basics
  import opened GceCore
  import opened GceProtocol
  import opened GceRuns
  import opened GceSafety
  import opened GceWake

  ghost predicate Two(s: Sys, l0: Local, l1: Local, net: multiset<Msg>, blocked: map<Task, Block>, held: multiset<Task>) {
    && Reachable(2, s) && Shape(s) && s.locals == [l0, l1] && s.net == net && s.blocked == blocked
    && s.held == [held, multiset{}] && s.completing == [0, 0]
  }

  /** A core that nothing happens on, but for tasks on its lists. */
  function Quiet(inProgress: bool, cv: seq<Task>, waking: seq<Task>): Local {
    Local(0, inProgress, 0, 0, cv, waking)
  }

  lemma TwoCoreSet()
    ensures CoreSet(2) - {0} == {1}
  {
  }

  lemma EnrollOnTwo(s: Sys, t: Task, l1: Local, net: multiset<Msg>, blocked: map<Task, Block>) returns (s': Sys)
    requires Two(s, Quiet(false, [], []), l1, net, blocked, multiset{}) && t !in blocked && s.stage == Idle
    ensures Two(s', Local(1, true, 1, 0, [], []), l1, net, blocked[t := Broadcasting(0, {1}, 1)], multiset{t})
    ensures s'.stage == Active && s'.opener == Some(t)
  {
    ReachableStep(2, s, EnrollStep(t, 0, 1, 0));
    s' := Apply(s, EnrollStep(t, 0, 1, 0));
    hide Reachable;
    EnrollsOnTwo(s, t);
    assert s'.blocked == s.blocked[t := Broadcasting(0, {1}, 1)];
    hide DoEnroll;
  }

  lemma EnrollParts(s: Sys, t: Task)
    requires Shape(s) && s.locals[MASTER].count == 0 && s.locals[MASTER].coresOut == 0
    ensures DoEnroll(s, t, MASTER, 1, 0) == FinishEnroll(CancelAtMaster(FirstWork(s, t, MASTER, 1, 0), MASTER), t, MASTER, 1)
  {
    hide MayEnroll, FinishEnroll;
  }

  lemma HeldOnTwo(held: seq<multiset<Task>>, t: Task)
    requires |held| == 2 && held[0] == held[1] == multiset{}
    ensures held[MASTER := held[MASTER][t := held[MASTER][t] + 1]] == [multiset{t}, multiset{}]
  {
    assert held[MASTER][t := held[MASTER][t] + 1] == multiset{t};
  }

  lemma LocalsOnTwo(locals: seq<Local>)
    requires |locals| == 2 && locals[0] == Quiet(false, [], [])
    ensures var locals1 := locals[MASTER := Enrolled(locals[MASTER], 1)];
      locals1[MASTER := BarrierCancelled(locals1[MASTER])] == [Local(1, true, 1, 0, [], []), locals[1]]
  {
  }

  lemma FirstOnTwo(s: Sys, t: Task)
    requires Shape(s) && Cores(s) == 2 && s.locals[0] == Quiet(false, [], []) && s.held[0] == multiset{} && s.stage == Idle
    requires |s.held| == 2 && s.held[1] == multiset{}
    ensures var s' := CancelAtMaster(FirstWork(s, t, MASTER, 1, 0), MASTER);
      && Shape(s') && s'.locals == [Local(1, true, 1, 0, [], []), s.locals[1]] && s'.net == s.net
      && s'.blocked == s.blocked && s'.held == [multiset{t}, multiset{}]
      && s'.completing == s.completing && s'.stage == Active && s'.opener == Some(t)
  {
    hide MayEnroll;
    HeldOnTwo(s.held, t);
    LocalsOnTwo(s.locals);
    hide Enrolled, BarrierCancelled;
  }

  lemma BroadcastOnTwo(s: Sys, t: Task)
    requires Shape(s) && Cores(s) == 2 && s.locals[0] == Local(1, true, 1, 0, [], [])
    ensures var s' := FinishEnroll(s, t, MASTER, 1);
      s' == s.(locals := s'.locals, blocked := s.blocked[t := Broadcasting(0, {1}, 1)]) && s'.locals == s.locals
  {
    TwoCoreSet();
    hide CoreSet;
  }

  lemma EnrollsOnTwo(s: Sys, t: Task)
    requires Shape(s) && Cores(s) == 2 && s.locals[0] == Quiet(false, [], []) && s.held[0] == multiset{} && s.stage == Idle
    requires |s.held| == 2 && s.held[1] == multiset{}
    ensures var s' := DoEnroll(s, t, 0, 1, 0);
      && Shape(s') && s'.locals == [Local(1, true, 1, 0, [], []), s.locals[1]] && s'.net == s.net
      && s'.blocked == s.blocked[t := Broadcasting(0, {1}, 1)] && s'.held == [multiset{t}, multiset{}]
      && s'.completing == s.completing && s'.stage == Active && s'.opener == Some(t)
  {
    var s0 := CancelAtMaster(FirstWork(s, t, MASTER, 1, 0), MASTER);
    FirstOnTwo(s, t);
    BroadcastOnTwo(s0, t);
    EnrollParts(s, t);
    hide DoEnroll, FirstWork, FinishEnroll, CancelAtMaster;
  }

  lemma SpreadOnTwo(s: Sys, t: Task, l1: Local, net: multiset<Msg>, blocked: map<Task, Block>) returns (s': Sys)
    requires Two(s, Local(1, true, 1, 0, [], []), l1, net, blocked[t := Broadcasting(0, {1}, 1)], multiset{t})
    requires s.stage == Active && s.opener == Some(t)
    ensures Two(s', Local(1, true, 1, 0, [], []), l1.(inProgress := true), net, blocked[t := Broadcasting(0, {}, 1)], multiset{t})
    ensures s'.stage == Active && s'.opener == Some(t)
  {
    ReachableStep(2, s, DeliverProgress(t, 1));
    s' := Apply(s, DeliverProgress(t, 1));
    assert {1} - {1} == {};
    assert s'.blocked == blocked[t := Broadcasting(0, {}, 1)];
  }

  lemma ReturnOnTwo(s: Sys, t: Task, l1: Local, net: multiset<Msg>, blocked: map<Task, Block>) returns (s': Sys)
    requires Two(s, Local(1, true, 1, 0, [], []), l1, net, blocked[t := Broadcasting(0, {}, 1)], multiset{t}) && t !in blocked
    requires s.stage == Active && s.opener == Some(t)
    ensures Two(s', Local(1, true, 1, 0, [], []), l1, net, blocked, multiset{t})
    ensures s'.stage == Active && s'.opener == None
  {
    ReachableStep(2, s, DeliverProgressAck(t));
    s' := Apply(s, DeliverProgressAck(t));
    assert s'.blocked == blocked;
  }

  /** Task t opens a phase with one enrollment on the master. */
  lemma OpenOnTwo(s: Sys, t: Task, l1: Local, net: multiset<Msg>, blocked: map<Task, Block>) returns (s': Sys)
    requires Two(s, Quiet(false, [], []), l1, net, blocked, multiset{}) && t !in blocked && s.stage == Idle
    ensures Two(s', Local(1, true, 1, 0, [], []), l1.(inProgress := true), net, blocked, multiset{t})
    ensures s'.stage == Active && s'.opener == None
  {
    hide Two;
    s' := EnrollOnTwo(s, t, l1, net, blocked);
    s' := SpreadOnTwo(s', t, l1, net, blocked);
    s' := ReturnOnTwo(s', t, l1.(inProgress := true), net, blocked);
  }

  /** Task w waits on the other core. */
  lemma WaitOnTwo(s: Sys, w: Task, l0: Local, l1: Local, net: multiset<Msg>, held: multiset<Task>) returns (s': Sys)
    requires Two(s, l0, l1, net, map[], held) && l1.inProgress
    ensures Two(s', l0, l1.(cv := [w] + l1.cv), net, map[w := OnCv(1)], held)
    ensures s'.stage == s.stage && s'.opener == s.opener
    ensures s'.detected == s.detected && w in s'.since && s'.since[w] == Opened(s)
  {
    ReachableStep(2, s, WaitStep(w, 1));
    s' := Apply(s, WaitStep(w, 1));
  }

  /** Task t completes its enrollment: the barrier entry is in flight. */
  lemma CompleteOnTwo(s: Sys, t: Task, l1: Local, net: multiset<Msg>, blocked: map<Task, Block>) returns (s': Sys)
    requires Two(s, Local(1, true, 1, 0, [], []), l1, net, blocked, multiset{t}) && t !in blocked
    ensures Two(s', Local(0, true, 1, 0, [], []), l1, net + multiset{Enter}, blocked, multiset{})
    ensures s'.stage == s.stage && s'.opener == s.opener && s'.since == s.since && s'.detected == s.detected
  {
    ReachableStep(2, s, CompleteStep(t, 0, 0, 1));
    s' := Apply(s, CompleteStep(t, 0, 0, 1));
    assert s.held[0][t := 1 - 1] == multiset{};
    assert s'.held == [multiset{}, multiset{}];
  }

  lemma EnterOnTwo(s: Sys, l1: Local, net: multiset<Msg>, blocked: map<Task, Block>) returns (s': Sys)
    requires Two(s, Local(0, true, 1, 0, [], []), l1, net + multiset{Enter}, blocked, multiset{})
    ensures Two(s', Local(0, true, 0, 2, [], []), l1, net + multiset{Reset(0), Reset(1)}, blocked, multiset{})
    ensures s'.since == s.since && s'.detected == s.detected + 1
  {
    ReachableStep(2, s, DeliverEnter);
    s' := Apply(s, DeliverEnter);
    assert ResetToAll(1) == ResetToAll(0) + multiset{Reset(0)};
    assert ResetToAll(2) == ResetToAll(1) + multiset{Reset(1)};
    assert s.net - multiset{Enter} == net;
  }

  lemma ResetMasterOnTwo(s: Sys, l1: Local, net: multiset<Msg>, blocked: map<Task, Block>) returns (s': Sys)
    requires Two(s, Local(0, true, 0, 2, [], []), l1, net + multiset{Reset(0)}, blocked, multiset{})
    ensures Two(s', Local(0, false, 0, 2, [], []), l1, net + multiset{ResetAck}, blocked, multiset{})
  {
    ReachableStep(2, s, DeliverReset(0));
    s' := Apply(s, DeliverReset(0));
    assert s.net - multiset{Reset(0)} == net;
  }

  lemma ResetOtherOnTwo(s: Sys, l0: Local, cv: seq<Task>, waking: seq<Task>, net: multiset<Msg>, blocked: map<Task, Block>)
    returns (s': Sys)
    requires Two(s, l0, Quiet(true, cv, waking), net + multiset{Reset(1)}, blocked, multiset{})
    ensures Two(s', l0, Quiet(false, [], cv), net + multiset{ResetAck}, blocked, multiset{})
    ensures s'.since == s.since && s'.detected == s.detected
  {
    ReachableStep(2, s, DeliverReset(1));
    s' := Apply(s, DeliverReset(1));
    assert s.net - multiset{Reset(1)} == net;
  }

  lemma FirstAckOnTwo(s: Sys, l1: Local, blocked: map<Task, Block>) returns (s': Sys)
    requires Two(s, Local(0, false, 0, 2, [], []), l1, multiset{ResetAck, ResetAck}, blocked, multiset{})
    ensures Two(s', Local(0, false, 0, 1, [], []), l1, multiset{ResetAck}, blocked, multiset{})
  {
    ReachableStep(2, s, DeliverResetAck);
    s' := Apply(s, DeliverResetAck);
    assert s'.net == multiset{ResetAck};
  }

  lemma LastAckOnTwo(s: Sys, l1: Local, blocked: map<Task, Block>) returns (s': Sys)
    requires Two(s, Local(0, false, 0, 1, [], []), l1, multiset{ResetAck}, blocked, multiset{})
    ensures Two(s', Quiet(false, [], []), l1, multiset{Wake(0), Wake(1)}, blocked, multiset{}) && s'.stage == Idle
  {
    ReachableStep(2, s, DeliverResetAck);
    s' := Apply(s, DeliverResetAck);
    assert WakeToAll(1) == WakeToAll(0) + multiset{Wake(0)};
    assert WakeToAll(2) == WakeToAll(1) + multiset{Wake(1)};
    assert s.net - multiset{ResetAck} == multiset{};
  }

  lemma WakeMasterOnTwo(s: Sys, l1: Local, blocked: map<Task, Block>) returns (s': Sys)
    requires Two(s, Quiet(false, [], []), l1, multiset{Wake(0), Wake(1)}, blocked, multiset{})
    ensures Two(s', Quiet(false, [], []), l1, multiset{Wake(1)}, blocked, multiset{}) && s'.stage == s.stage
  {
    ReachableStep(2, s, DeliverWake(0));
    s' := Apply(s, DeliverWake(0));
    assert s'.blocked == blocked;
  }

  lemma InitOnTwo() returns (s: Sys)
    ensures Two(s, Quiet(false, [], []), Quiet(false, [], []), multiset{}, map[], multiset{}) && s.stage == Idle
  {
    ReachableInit(2);
    s := InitSys(2);
  }

  /** A phase ends, with its waiters on the other core captured, and its wake to that core stays in flight. */
  lemma EndOnTwo(s: Sys, t: Task, cv: seq<Task>, blocked: map<Task, Block>) returns (s': Sys)
    requires Two(s, Local(1, true, 1, 0, [], []), Quiet(true, cv, []), multiset{}, blocked, multiset{t}) && t !in blocked
    ensures Two(s', Quiet(false, [], []), Quiet(false, [], cv), multiset{Wake(1)}, blocked, multiset{}) && s'.stage == Idle
  {
    hide Two;
    s' := CompleteOnTwo(s, t, Quiet(true, cv, []), multiset{}, blocked);
    s' := EnterOnTwo(s', Quiet(true, cv, []), multiset{}, blocked);
    assert multiset{} + multiset{Reset(0), Reset(1)} == multiset{Reset(1)} + multiset{Reset(0)};
    s' := ResetMasterOnTwo(s', Quiet(true, cv, []), multiset{Reset(1)}, blocked);
    assert multiset{Reset(1)} + multiset{ResetAck} == multiset{ResetAck} + multiset{Reset(1)};
    s' := ResetOtherOnTwo(s', Local(0, false, 0, 2, [], []), cv, [], multiset{ResetAck}, blocked);
    assert multiset{ResetAck} + multiset{ResetAck} == multiset{ResetAck, ResetAck};
    s' := FirstAckOnTwo(s', Quiet(false, [], cv), blocked);
    s' := LastAckOnTwo(s', Quiet(false, [], cv), blocked);
    s' := WakeMasterOnTwo(s', Quiet(false, [], cv), blocked);
  }

  /** In a second phase the reset of the other core overtakes the wake of the first. */
  lemma OvertakeOnTwo(s: Sys, t: Task, cv: seq<Task>, waking: seq<Task>, blocked: map<Task, Block>) returns (s': Sys)
    requires Two(s, Local(1, true, 1, 0, [], []), Quiet(true, cv, waking), multiset{Wake(1)}, blocked, multiset{t}) && t !in blocked
    ensures Two(s', Local(0, true, 0, 2, [], []), Quiet(false, [], cv), multiset{Wake(1), Reset(0), ResetAck}, blocked, multiset{})
    ensures s'.since == s.since && s'.detected == s.detected + 1
  {
    hide Two;
    s' := CompleteOnTwo(s, t, Quiet(true, cv, waking), multiset{Wake(1)}, blocked);
    s' := EnterOnTwo(s', Quiet(true, cv, waking), multiset{Wake(1)}, blocked);
    assert multiset{Wake(1)} + multiset{Reset(0), Reset(1)} == multiset{Wake(1), Reset(0)} + multiset{Reset(1)};
    s' := ResetOtherOnTwo(s', Local(0, true, 0, 2, [], []), cv, waking, multiset{Wake(1), Reset(0)}, blocked);
    assert multiset{Wake(1), Reset(0)} + multiset{ResetAck} == multiset{Wake(1), Reset(0), ResetAck};
  }

  /**
   With messages between two cores delivered in any order a waiter can be lost: on a core
   that is not the master, the reset of a second phase overtakes the wake of the first,
   and the task is left suspended on no list.
   */
  lemma LostWakeup()
    ensures exists s, w :: Reachable(2, s) && Lost(s, w, 1)
  {
    var t, w := Task(0), Task(1);
    var blocked := map[w := OnCv(1)];
    var s := InitOnTwo();
    s := OpenOnTwo(s, t, Quiet(false, [], []), multiset{}, map[]);
    s := WaitOnTwo(s, w, Local(1, true, 1, 0, [], []), Quiet(true, [], []), multiset{}, multiset{t});
    assert [w] + [] == [w];
    s := EndOnTwo(s, t, [w], blocked);
    s := OpenOnTwo(s, t, Quiet(false, [], [w]), multiset{Wake(1)}, blocked);
    s := OvertakeOnTwo(s, t, [], [w], blocked);
    assert Lost(s, w, 1);
  }

  /**
   A wake can come too early: it was sent for the first phase, and wakes a task that waits
   for the second while the master's reset for that phase is in flight.
   */
  lemma EarlyWake()
    ensures exists s ::
      Reachable(2, s) && Shape(s) && Cores(s) == 2 && Enabled(s, DeliverWake(1)) && TooEarly(s, 1, 0)
  {
    var t, w := Task(0), Task(1);
    var s := InitOnTwo();
    s := OpenOnTwo(s, t, Quiet(false, [], []), multiset{}, map[]);
    s := EndOnTwo(s, t, [], map[]);
    s := OpenOnTwo(s, t, Quiet(false, [], []), multiset{Wake(1)}, map[]);
    s := WaitOnTwo(s, w, Local(1, true, 1, 0, [], []), Quiet(true, [], []), multiset{Wake(1)}, multiset{t});
    assert [w] + [] == [w];
    s := OvertakeOnTwo(s, t, [w], [], map[w := OnCv(1)]);
    assert w in s.locals[1].waking && s.since[w] == s.detected;
  }
}
