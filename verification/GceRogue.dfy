/**
 Runs of the GlobalCompletionEvent protocol after an enroll that breaks the rule: each
 ends with a failed CHECK of a reset handler.
 */
module GceRogue {
  import opened Basics
  import opened GceCore
  import opened GceProtocol
  import opened GceRuns
  import opened GceSafety
  import opened GceTheorems

  /** Some run from s fails a CHECK. */
  ghost predicate CanFail(s: Sys) {
    exists steps, s' :: Run(s, steps, s') && s'.failed
  }

  lemma FailsLater(s: Sys, steps: seq<Step>, s': Sys)
    requires Run(s, steps, s') && CanFail(s')
    ensures CanFail(s)
  {
    var more, last :| Run(s', more, last) && last.failed;
    RunConcat(s, steps, s', more, last);
  }

  lemma FailsNext(s: Sys, step: Step)
    requires Enabled(s, step) && CanFail(Apply(s, step))
    ensures CanFail(s)
  {
    RunOne(s, step);
    FailsLater(s, [step], Apply(s, step));
  }

  /** A core with work that is about to be reset. */
  lemma ResetFails(s: Sys, c: Core)
    requires Enabled(s, DeliverReset(c)) && s.locals[c].count != 0
    ensures CanFail(s)
  {
    RunOne(s, DeliverReset(c));
    assert Apply(s, DeliverReset(c)).failed;
  }

  // ---------- Work that the master does not know of ----------

  /** A core other than the master has work that the barrier counter does not know of. */
  ghost predicate Unseen(s: Sys, c: Core) {
    && Shape(s) && 0 < c < Cores(s)
    && s.locals[c].count != 0 && s.locals[MASTER].coresOut == s.net[Enter]
  }

  lemma OneEntryUnseen(s: Sys, c: Core)
    requires Unseen(s, c) && s.net[Enter] >= 1
    ensures var s' := DoDeliverEnter(s);
      && Shape(s') && Cores(s') == Cores(s) && s'.locals[c].count != 0
      && if s.net[Enter] == 1 then Reset(c) in s'.net
         else Unseen(s', c) && s'.net[Enter] == s.net[Enter] - 1
  {
  }

  /** Delivering every entry then broadcasts the resets. */
  lemma {:induction false} UnseenFails(s: Sys, c: Core)
    requires Unseen(s, c) && s.net[Enter] >= 1
    ensures CanFail(s)
    decreases s.net[Enter]
  {
    assert Enabled(s, DeliverEnter) && Apply(s, DeliverEnter) == DoDeliverEnter(s);
    OneEntryUnseen(s, c);
    hide DoDeliverEnter, CanFail;
    if s.net[Enter] > 1 {
      UnseenFails(DoDeliverEnter(s), c);
    } else {
      ResetFails(DoDeliverEnter(s), c);
    }
    FailsNext(s, DeliverEnter);
  }

  // ---------- Getting an enroll to return ----------

  /** s' is s with task u back from its broadcast. */
  ghost predicate Spreads(s: Sys, s': Sys, u: Task) {
    && Shape(s) && Shape(s') && Cores(s') == Cores(s)
    && s' == s.(locals := s'.locals, blocked := s'.blocked, opener := None, failed := s'.failed)
    && s'.blocked == s.blocked - {u}
    && (forall d :: 0 <= d < Cores(s) ==> s'.locals[d] == s.locals[d].(inProgress := s'.locals[d].inProgress))
  }

  ghost predicate Broadcasts(s: Sys, u: Task) {
    && Shape(s) && u in s.blocked && s.blocked[u].Broadcasting? && s.blocked[u].at < Cores(s)
    && s.blocked[u].todo <= CoreSet(Cores(s)) && |s.blocked[u].todo| <= s.blocked[u].missing && s.blocked[u].missing >= 1
  }

  /** The steps of a broadcast. */
  predicate Spreading(step: Step) {
    step.DeliverProgress? || step.DeliverProgressAck?
  }

  /** s' is s with task u one step further in its broadcast. */
  ghost predicate SpreadsOn(s: Sys, s': Sys, u: Task) {
    && Broadcasts(s, u) && Broadcasts(s', u)
    && |s'.blocked[u].todo| + s'.blocked[u].missing < |s.blocked[u].todo| + s.blocked[u].missing
    && Spreads(s, s'.(blocked := s'.blocked - {u}, opener := None), u)
  }

  lemma ProgressSpreads(s: Sys, u: Task, d: Core)
    requires Broadcasts(s, u) && d in s.blocked[u].todo
    ensures d < Cores(s) && SpreadsOn(s, DoDeliverProgress(s, u, d), u)
  {
    hide CoreSet;
    var s' := DoDeliverProgress(s, u, d);
    assert s'.blocked - {u} == s.blocked - {u};
  }

  lemma AckSpreads(s: Sys, u: Task)
    requires Broadcasts(s, u) && s.blocked[u].todo == {}
    ensures var s' := DoDeliverProgressAck(s, u);
      if s.blocked[u].missing == 1 then Spreads(s, s', u) else SpreadsOn(s, s', u)
  {
    hide CoreSet;
    var s' := DoDeliverProgressAck(s, u);
    assert s'.blocked - {u} == s.blocked - {u};
  }

  lemma OneProgress(s: Sys, u: Task) returns (step: Step)
    requires Broadcasts(s, u)
    ensures Enabled(s, step) && Spreading(step)
    ensures if s.blocked[u].todo == {} && s.blocked[u].missing == 1 then Spreads(s, Apply(s, step), u)
      else SpreadsOn(s, Apply(s, step), u)
  {
    if s.blocked[u].todo == {} {
      step := DeliverProgressAck(u);
      AckSpreads(s, u);
      hide SpreadsOn, Spreads, DoDeliverProgressAck, CoreSet;
    } else {
      var d :| d in s.blocked[u].todo;
      step := DeliverProgress(u, d);
      ProgressSpreads(s, u, d);
      hide SpreadsOn, Spreads, DoDeliverProgress, CoreSet;
    }
  }

  lemma SpreadsTrans(s: Sys, s1: Sys, s2: Sys, u: Task)
    requires Shape(s1) && Spreads(s, s1.(blocked := s1.blocked - {u}, opener := None), u) && Spreads(s1, s2, u)
    ensures Spreads(s, s2, u)
  {
  }

  /** A broadcast can always be brought to its end. */
  lemma {:induction false} Spread(s: Sys, u: Task) returns (steps: seq<Step>, s': Sys)
    requires Broadcasts(s, u)
    ensures Run(s, steps, s') && Spreads(s, s', u) && forall i :: 0 <= i < |steps| ==> Spreading(steps[i])
    decreases |s.blocked[u].todo| + s.blocked[u].missing
  {
    var step := OneProgress(s, u);
    var s1 := Apply(s, step);
    if s.blocked[u].todo == {} && s.blocked[u].missing == 1 {
      steps, s' := [step], s1;
      RunOne(s, step);
    } else {
      var rest: seq<Step>;
      rest, s' := Spread(s1, u);
      hide Broadcasts, Enabled, Apply;
      SpreadsTrans(s, s1, s', u);
      hide Spreads;
      RunCons(s, step, rest, s');
      steps := [step] + rest;
    }
  }

  /** s' is s with inc enrollments of task t on core x, the first work that the master knows of. */
  ghost predicate Joins(s: Sys, s': Sys, t: Task, x: Core, inc: nat) {
    && Shape(s) && Shape(s') && Cores(s') == Cores(s) && x < Cores(s)
    && s'.net == s.net && s'.completing == s.completing && s'.blocked == s.blocked
    && s'.held == s.held[x := s.held[x][t := s.held[x][t] + inc]]
    && s'.locals[MASTER].coresOut == 1 && s'.locals[MASTER].wakingOut == s.locals[MASTER].wakingOut
    && s'.locals[x].count == inc && (forall d :: 0 <= d < Cores(s) && d != x ==> s'.locals[d].count == s.locals[d].count)
    && (s.stage != Idle ==> s'.stage == s.stage)
  }

  /** The same, with task t in its broadcast, or back when there is only one core. */
  ghost predicate Announces(s: Sys, s1: Sys, t: Task, x: Core, inc: nat) {
    && Joins(s, s1.(blocked := s1.blocked - {t}), t, x, inc)
    && t !in s.blocked && if Cores(s) == 1 then t !in s1.blocked else Broadcasts(s1, t)
  }

  lemma AnnounceEnds(s: Sys, s1: Sys, t: Task, x: Core, inc: nat) returns (steps: seq<Step>, s': Sys)
    requires Announces(s, s1, t, x, inc)
    ensures Run(s1, steps, s') && Joins(s, s', t, x, inc)
  {
    if Cores(s) == 1 {
      steps, s' := [], s1;
      assert s1.blocked == s1.blocked - {t};
    } else {
      steps, s' := Spread(s1, t);
      hide Run, Broadcasts;
    }
  }

  lemma FinishAnnounces(s: Sys, s0: Sys, t: Task, x: Core, inc: nat)
    requires Joins(s, s0.(blocked := s0.blocked - {t}), t, x, inc) && t !in s.blocked && inc >= 1
    ensures Announces(s, FinishEnroll(s0, t, x, 1), t, x, inc)
  {
    FinishJoins(s, s0, t, x, inc);
    FinishBroadcasts(s0, t, x);
    hide Joins, Broadcasts;
  }

  lemma FinishJoins(s: Sys, s0: Sys, t: Task, x: Core, inc: nat)
    requires Joins(s, s0.(blocked := s0.blocked - {t}), t, x, inc) && t !in s.blocked && inc >= 1
    ensures var s1 := FinishEnroll(s0, t, x, 1); Joins(s, s1.(blocked := s1.blocked - {t}), t, x, inc)
  {
    FinishKeeps(s0, t, x, 1);
    hide FinishEnroll;
  }

  lemma FinishBroadcasts(s0: Sys, t: Task, x: Core)
    requires Shape(s0) && x < Cores(s0)
    ensures var s1 := FinishEnroll(s0, t, x, 1); if Cores(s0) == 1 then t !in s1.blocked else Broadcasts(s1, t)
  {
    assert |CoreSet(Cores(s0)) - {x}| == Cores(s0) - 1;
  }

  ghost predicate FirstOfAll(s: Sys, t: Task, x: Core, inc: nat) {
    && Shape(s) && x < Cores(s) && t !in s.blocked && inc >= 1
    && s.locals[x].count == 0 && s.locals[MASTER].coresOut == 0
  }

  lemma FirstOnMaster(s: Sys, t: Task, inc: nat, via: Core)
    requires FirstOfAll(s, t, MASTER, inc)
    ensures Announces(s, DoEnroll(s, t, MASTER, inc, via), t, MASTER, inc)
  {
    var s0 := CancelAtMaster(FirstWork(s, t, MASTER, inc, via), MASTER);
    assert s0.blocked - {t} == s.blocked;
    FinishAnnounces(s, s0, t, MASTER, inc);
    assert DoEnroll(s, t, MASTER, inc, via) == FinishEnroll(s0, t, MASTER, 1);
  }

  lemma FirstElsewhere(s: Sys, t: Task, x: Core, inc: nat, via: Core)
    requires FirstOfAll(s, t, x, inc) && x != MASTER
    ensures var s1 := DoEnroll(s, t, x, inc, via);
      && Enabled(s1, DeliverCancel(t))
      && var s2 := Apply(s1, DeliverCancel(t));
      && Enabled(s2, DeliverCancelled(t)) && s2.blocked[t] == Cancelled(x, 1)
      && Joins(s, s2.(blocked := s2.blocked - {t}), t, x, inc)
  {
    var s1 := DoEnroll(s, t, x, inc, via);
    assert s1 == Requested(s, t, x, inc, via);
    var s2 := Apply(s1, DeliverCancel(t));
    assert s2.blocked - {t} == s.blocked;
  }

  /** The first enroll that the master hears of can always be brought to its end. */
  lemma FirstReturns(s: Sys, t: Task, x: Core, inc: nat, via: Core) returns (steps: seq<Step>, s': Sys)
    requires FirstOfAll(s, t, x, inc)
    ensures Run(DoEnroll(s, t, x, inc, via), steps, s') && Joins(s, s', t, x, inc)
  {
    var s1 := DoEnroll(s, t, x, inc, via);
    hide DoEnroll;
    if x == MASTER {
      FirstOnMaster(s, t, inc, via);
      steps, s' := AnnounceEnds(s, s1, t, x, inc);
    } else {
      FirstElsewhere(s, t, x, inc, via);
      var s2 := Apply(s1, DeliverCancel(t));
      FinishAnnounces(s, s2, t, x, inc);
      var s3 := Apply(s2, DeliverCancelled(t));
      steps, s' := AnnounceEnds(s, s3, t, x, inc);
      hide Announces, Joins, Enabled, Apply;
      RunCons(s2, DeliverCancelled(t), steps, s');
      RunCons(s1, DeliverCancel(t), [DeliverCancelled(t)] + steps, s');
      steps := [DeliverCancel(t)] + ([DeliverCancelled(t)] + steps);
    }
  }

  // ---------- An enroll while the phase is being opened ----------

  /** Only the opener's core has work, and the master does not know of it yet. */
  ghost predicate OnlyOpener(s: Sys, c0: Core) {
    && Shape(s) && 0 < c0 < Cores(s) && s.locals[c0].count > 0
    && (forall d :: 0 <= d < Cores(s) && d != c0 ==> s.locals[d].count == 0)
    && s.locals[MASTER].coresOut == 0 && Enter !in s.net
  }

  lemma LoneOpener(s: Sys) returns (c0: Core)
    requires Inv(s) && s.stage == Active && !Running(s)
    ensures OnlyOpener(s, c0)
  {
    OutIsRunning(s);
    c0 := s.blocked[s.opener.value].at;
    assert IsCancelling(s.blocked, s.opener.value, c0) && CancelOk(s, s.opener.value, c0);
    assert |s.held[c0]| > 0;
  }

  /** Task t completes the only work that the master knows of. */
  lemma JoinedFails(s: Sys, t: Task, x: Core, k: nat, c0: Core)
    requires Shape(s) && t !in s.blocked && x < Cores(s) && 1 <= k <= s.held[x][t] && s.locals[x].count == k
    requires 0 < c0 < Cores(s) && c0 != x && s.locals[c0].count != 0
    requires s.locals[MASTER].coresOut == 1 && Enter !in s.net
    ensures CanFail(s)
  {
    var step := CompleteStep(t, x, x, k);
    assert Unseen(Apply(s, step), c0) && Apply(s, step).net[Enter] == 1;
    UnseenFails(Apply(s, step), c0);
    FailsNext(s, step);
  }

  lemma MoreWorkOpens(s: Sys, t: Task, c0: Core, inc: nat, via: Core)
    requires OnlyOpener(s, c0) && t !in s.blocked && inc >= 1
    ensures var s1 := DoEnroll(s, t, c0, inc, via);
      && OnlyOpener(s1, c0) && FirstOfAll(s1, t, MASTER, 1) && Enabled(s1, EnrollStep(t, MASTER, 1, c0))
  {
    assert DoEnroll(s, t, c0, inc, via) == MoreWork(s, t, c0, inc);
  }

  lemma FirstBesideFails(s: Sys, t: Task, x: Core, inc: nat, via: Core, c0: Core)
    requires OnlyOpener(s, c0) && x != c0 && FirstOfAll(s, t, x, inc)
    ensures CanFail(DoEnroll(s, t, x, inc, via))
  {
    var steps, s' := FirstReturns(s, t, x, inc, via);
    hide DoEnroll, Run;
    JoinedFails(s', t, x, inc, c0);
    FailsLater(DoEnroll(s, t, x, inc, via), steps, s');
  }

  /** Before the opener's request has reached the master, every other enroll can fail a CHECK. */
  lemma OpeningFails(s: Sys, t: Task, c: Core, inc: nat, via: Core)
    requires Inv(s) && s.stage == Active && !Running(s) && c < Cores(s) && t !in s.blocked && inc >= 1
    ensures CanFail(DoEnroll(s, t, c, inc, via))
  {
    var c0 := LoneOpener(s);
    hide Inv, CanFail, DoEnroll;
    if c != c0 {
      FirstBesideFails(s, t, c, inc, via, c0);
    } else {
      var s1 := DoEnroll(s, t, c, inc, via);
      MoreWorkOpens(s, t, c, inc, via);
      FirstBesideFails(s1, t, MASTER, 1, c, c0);
      assert Apply(s1, EnrollStep(t, MASTER, 1, c)) == DoEnroll(s1, t, MASTER, 1, c);
      FailsNext(s1, EnrollStep(t, MASTER, 1, c));
    }
  }

  // ---------- An enroll while the cores are being reset ----------

  /** Detection is over: no core has work, and the master is waiting for acknowledgements. */
  ghost predicate Cleared(s: Sys) {
    && Shape(s) && (forall d :: 0 <= d < Cores(s) ==> s.locals[d].count == 0)
    && s.locals[MASTER].coresOut == 0 && Enter !in s.net && s.stage == Resetting
    && (ResetAck in s.net || exists d :: 0 <= d < Cores(s) && Reset(d) in s.net)
  }

  lemma ResettingCleared(s: Sys)
    requires Inv(s) && s.stage == Resetting
    ensures Cleared(s)
  {
    if ResetAck !in s.net {
      var d :| d in ToReset(s);
    }
  }

  lemma EnrollCounts(s: Sys, t: Task, c: Core, inc: nat, via: Core)
    requires Shape(s) && c < Cores(s) && s.locals[c].count == 0 && inc >= 1
    ensures var s' := DoEnroll(s, t, c, inc, via);
      Shape(s') && Cores(s') == Cores(s) && s'.locals[c].count == inc && s'.net == s.net
  {
    hide CoreSet;
  }

  /** Work on a core whose reset is in flight. */
  lemma EnrollBeforeReset(s: Sys, t: Task, c: Core, inc: nat, via: Core)
    requires Shape(s) && c < Cores(s) && s.locals[c].count == 0 && inc >= 1 && Reset(c) in s.net
    ensures CanFail(DoEnroll(s, t, c, inc, via))
  {
    EnrollCounts(s, t, c, inc, via);
    hide DoEnroll;
    ResetFails(DoEnroll(s, t, c, inc, via), c);
  }

  /** A task with work, on a core that has been reset, enrolls on one that has not. */
  lemma SecondBeforeReset(s: Sys, t: Task, d: Core, via: Core)
    requires Shape(s) && d < Cores(s) && s.locals[d].count == 0 && Reset(d) in s.net && t !in s.blocked
    requires MayEnroll(s, t, d, via)
    ensures CanFail(s)
  {
    EnrollBeforeReset(s, t, d, 1, via);
    assert Apply(s, EnrollStep(t, d, 1, via)) == DoEnroll(s, t, d, 1, via);
    hide CanFail, DoEnroll;
    FailsNext(s, EnrollStep(t, d, 1, via));
  }

  /** A second detection overwrites the number of acknowledgements that the master waits for. */
  ghost predicate Overwritten(s: Sys, t: Task, resets: nat, acks: nat, awaited: int) {
    && Shape(s) && t !in s.blocked && resets < Cores(s)
    && (forall d: Core :: resets <= d < Cores(s) ==> Reset(d) in s.net)
    && s.locals[Cores(s) - 1].count == 0
    && s.net[ResetAck] >= acks && s.locals[MASTER].wakingOut == awaited
  }

  lemma NextReset(s: Sys, t: Task, j: nat, acks: nat, awaited: int)
    requires Overwritten(s, t, j, acks, awaited) && j + 1 < Cores(s)
    ensures Enabled(s, DeliverReset(j)) && Cores(Apply(s, DeliverReset(j))) == Cores(s)
    ensures Overwritten(Apply(s, DeliverReset(j)), t, j + 1, acks + 1, awaited)
  {
  }

  lemma NextAck(s: Sys, t: Task, j: nat, acks: nat, awaited: nat)
    requires Overwritten(s, t, j, acks, awaited) && acks >= 1 && awaited >= 1
    ensures Enabled(s, DeliverResetAck) && Cores(Apply(s, DeliverResetAck)) == Cores(s)
    ensures Overwritten(Apply(s, DeliverResetAck), t, j, acks - 1, awaited - 1)
    ensures awaited == 1 ==> Apply(s, DeliverResetAck).stage == Idle
  {
  }

  /** The wakes go out while the last core's reset is in flight; then a new phase may open there. */
  lemma {:induction false} AcksFail(s: Sys, t: Task, j: nat, acks: nat, awaited: nat)
    requires Overwritten(s, t, j, acks, awaited) && acks >= awaited && (awaited == 0 ==> s.stage == Idle)
    ensures CanFail(s)
    decreases awaited
  {
    if awaited == 0 {
      SecondBeforeReset(s, t, Cores(s) - 1, 0);
    } else {
      NextAck(s, t, j, acks, awaited);
      hide Overwritten, Enabled, Apply;
      AcksFail(Apply(s, DeliverResetAck), t, j, acks - 1, awaited - 1);
      FailsNext(s, DeliverResetAck);
    }
  }

  lemma {:induction false} ResetsFail(s: Sys, t: Task, j: nat, acks: nat)
    requires Overwritten(s, t, j, acks, Cores(s)) && acks >= j + 1
    ensures CanFail(s)
    decreases Cores(s) - j
  {
    if j + 1 == Cores(s) {
      AcksFail(s, t, j, acks, Cores(s));
    } else {
      NextReset(s, t, j, acks, Cores(s));
      hide Overwritten, Enabled, Apply;
      ResetsFail(Apply(s, DeliverReset(j)), t, j + 1, acks + 1);
      FailsNext(s, DeliverReset(j));
    }
  }

  /** Task t completes the only work there is, and the barrier is entered and completed again. */
  lemma DetectedAgain(s: Sys, t: Task, x: Core, k: nat)
    requires Shape(s) && t !in s.blocked && x < Cores(s) && 1 <= k <= s.held[x][t] && s.locals[x].count == k
    requires forall d :: 0 <= d < Cores(s) && d != x ==> s.locals[d].count == 0
    requires s.locals[MASTER].coresOut == 1 && Enter !in s.net && ResetAck in s.net
    ensures CanFail(s)
  {
    var step := CompleteStep(t, x, x, k);
    var s1 := Apply(s, step);
    assert Enabled(s1, DeliverEnter) && s1.locals[MASTER].coresOut == 1;
    var s2 := Apply(s1, DeliverEnter);
    assert Overwritten(s2, t, 0, 1, Cores(s2));
    ResetsFail(s2, t, 0, 1);
    hide Overwritten, CanFail;
    FailsNext(s1, DeliverEnter);
    FailsNext(s, step);
  }

  /** Between detection and the last acknowledgement, every enroll can fail a CHECK. */
  lemma ResettingFails(s: Sys, t: Task, c: Core, inc: nat, via: Core)
    requires Cleared(s) && c < Cores(s) && t !in s.blocked && inc >= 1
    ensures CanFail(DoEnroll(s, t, c, inc, via))
  {
    hide CanFail;
    if Reset(c) in s.net {
      EnrollBeforeReset(s, t, c, inc, via);
    } else {
      var steps, s' := FirstReturns(s, t, c, inc, via);
      hide DoEnroll, Run;
      if d :| 0 <= d < Cores(s) && Reset(d) in s.net {
        assert t in s'.held[c];
        SecondBeforeReset(s', t, d, c);
      } else {
        DetectedAgain(s', t, c, inc);
      }
      FailsLater(DoEnroll(s, t, c, inc, via), steps, s');
    }
  }
}
