/**
 FetchAddCombiner gets done: exactly when a round is started, and that from every state
 everybody who has promised to call or has called can return.
 */
module FetchAddProgress {
  import opened Basics
  import opened FetchAddCombiner
  import opened FetchAddProofs

  // ---------- When a round is started ----------

  /**
   In every run a task that comes to a unit that aggregates starts a round if and only if
   nobody is waiting to get in, and the threshold is reached or nobody else has promised
   to come.
   */
  lemma RoundStartsIff(p: Params, s: Sys, steps: seq<Step>, s1: Sys, step: Step)
    requires Init(p, s) && Run(p, s, steps, s1) && (step.Enter? || step.Retry?) && Enabled(s1, step) && !s1.unit.outstanding
    ensures var s2 := Apply(p, s1, step);
      step.t in s2.calls <==> Waiters(s2) == {} && (|Participants(s2)| >= p.threshold || s2.promised == {})
  {
    ReachableInv(p, s, steps, s1);
    StepTasks(p, s1, step);
    hide HistoryOk, Run, Init;
    assert PlaceOk(s1, {}, step.t);
    var s2 := Apply(p, s1, step);
    Came(p, s1, step);
    assert Counts(s2, 0, 0);
    EmptyCards(s2);
    hide Places, Adds, Phase, Apply, Waiters, Participants;
  }

  lemma EmptyCards(s: Sys)
    ensures |Waiters(s)| == 0 <==> Waiters(s) == {}
    ensures |s.promised| == 0 <==> s.promised == {}
  {
  }

  /** What a task does that comes to a unit that aggregates. */
  lemma Came(p: Params, s: Sys, step: Step)
    requires (step.Enter? || step.Retry?) && Enabled(s, step) && !s.unit.outstanding && step.t !in s.calls
    ensures var s' := Apply(p, s, step); step.t in s'.calls <==> Flushes(s'.unit, p.threshold)
  {
  }

  // ---------- Everybody returns ----------

  /** What the remote call has left to do. */
  ghost function CallWork(calls: map<Task, CallStage>): nat {
    if calls == map[] then 0 else if exists t :: t in calls && calls[t].Requested? then 3 else 2
  }

  /** How many steps are left. */
  ghost function Work(s: Sys): nat {
    6 * |s.promised| + 5 * |s.cvReady| + 4 * |s.wokenReady| + 3 * |s.cvReceived| + |s.woken| + CallWork(s.calls)
  }

  lemma JoinWork(p: Params, s: Sys, t: Task)
    requires t in s.inc && s.calls == map[] && t !in s.cvReceived
    ensures Work(Join(p, s, t)) == Work(s) + 3
  {
    assert |s.cvReceived + {t}| == |s.cvReceived| + 1;
    var calls := s.calls[t := Requested(Joined(s.unit, s.inc[t]).increment)];
    assert t in calls && calls[t].Requested?;
  }

  lemma EnterWork(p: Params, s: Sys, t: Task, k: int)
    requires TasksOk(p, s) && Enabled(s, Enter(t, k))
    ensures Work(Apply(p, s, Enter(t, k))) < Work(s)
  {
    assert PlaceOk(s, {}, t);
    var s1 := s.(promised := s.promised - {t}, inc := s.inc[t := k]);
    assert |s1.promised| == |s.promised| - 1;
    assert Work(s1) == Work(s) - 6;
    if s.unit.outstanding {
      assert |s.cvReady + {t}| == |s.cvReady| + 1;
    } else {
      hide Places, Adds, Join, Work;
      JoinWork(p, s1, t);
    }
  }

  lemma RetryWork(p: Params, s: Sys, t: Task)
    requires TasksOk(p, s) && Enabled(s, Retry(t))
    ensures Work(Apply(p, s, Retry(t))) < Work(s)
  {
    assert PlaceOk(s, {}, t);
    RetryFinds(p, s, t);
    var s1 := s.(unit := s.unit.(readyWaiters := s.unit.readyWaiters - 1), wokenReady := s.wokenReady - {t});
    assert |s1.wokenReady| == |s.wokenReady| - 1;
    assert Work(s1) == Work(s) - 4;
    hide Places, Adds, Join, Work;
    JoinWork(p, s1, t);
  }

  lemma ServeWork(p: Params, s: Sys, t: Task)
    requires TasksOk(p, s) && Enabled(s, Serve(t))
    ensures Work(Apply(p, s, Serve(t))) < Work(s)
  {
    OnlyCaller(p, s, t);
    var s' := Apply(p, s, Serve(t));
    assert s'.calls == map[t := Answered(s.target)];
    assert t in s.calls && s.calls[t].Requested?;
  }

  lemma Cards(xs: set<Task>, ys: set<Task>)
    ensures |xs + ys| <= |xs| + |ys|
  {
    assert |xs + ys| == |xs| + |ys| - |xs * ys|;
  }

  lemma FinishWork(s: Sys, t: Task)
    requires t in s.inc
    ensures Work(Finish(s, t)) <= Work(s)
  {
    Cards(s.wokenReady, s.cvReady);
  }

  lemma ReplyWork(p: Params, s: Sys, t: Task)
    requires TasksOk(p, s) && Enabled(s, Reply(t))
    ensures Work(Apply(p, s, Reply(t))) < Work(s)
  {
    OnlyCaller(p, s, t);
    var s1 := s.(unit := s.unit.(result := s.calls[t].r), calls := s.calls - {t},
                 woken := s.woken + s.cvReceived, cvReceived := {});
    assert s1.calls == map[];
    Cards(s.woken, s.cvReceived);
    assert Work(s1) < Work(s);
    hide Finish, Work, TasksOk;
    FinishWork(s1, t);
  }

  lemma ResumeWork(p: Params, s: Sys, t: Task)
    requires TasksOk(p, s) && Enabled(s, Resume(t))
    ensures Work(Apply(p, s, Resume(t))) < Work(s)
  {
    var s1 := s.(woken := s.woken - {t});
    assert |s1.woken| == |s.woken| - 1;
    hide Finish, TasksOk;
    FinishWork(s1, t);
  }

  /** The steps that need no new caller. */
  predicate GoingOn(step: Step) {
    !step.Promise? && !step.Other?
  }

  lemma StepWork(p: Params, s: Sys, step: Step)
    requires TasksOk(p, s) && Enabled(s, step) && GoingOn(step)
    ensures Work(Apply(p, s, step)) < Work(s)
  {
    hide TasksOk, Work, Apply, Enabled;
    match step
    case Enter(t, k) => EnterWork(p, s, t, k);
    case Retry(t) => RetryWork(p, s, t);
    case Serve(t) => ServeWork(p, s, t);
    case Reply(t) => ReplyWork(p, s, t);
    case Resume(t) => ResumeWork(p, s, t);
  }

  /** Those who have promised to call, have called or have returned. */
  function Known(s: Sys): set<Task> {
    s.promised + s.inc.Keys + s.done.Keys
  }

  lemma JoinKnown(p: Params, s: Sys, t: Task)
    requires t in s.inc
    ensures Known(BlockOrJoin(p, s, t)) == Known(s)
  {
  }

  lemma FinishKnown(s: Sys, t: Task)
    requires t in s.inc
    ensures Known(Finish(s, t)) == Known(s)
  {
    assert (s.inc - {t}).Keys == s.inc.Keys - {t};
  }

  lemma StepKnown(p: Params, s: Sys, step: Step)
    requires Enabled(s, step)
    ensures Known(s) <= Known(Apply(p, s, step))
  {
    hide Join, Finish, BlockOrJoin;
    match step
    case Enter(t, k) => JoinKnown(p, s.(promised := s.promised - {t}, inc := s.inc[t := k]), t);
    case Retry(t) =>
      JoinKnown(p, s.(unit := s.unit.(readyWaiters := s.unit.readyWaiters - 1), wokenReady := s.wokenReady - {t}), t);
    case Reply(t) =>
      FinishKnown(s.(unit := s.unit.(result := s.calls[t].r), calls := s.calls - {t},
                     woken := s.woken + s.cvReceived, cvReceived := {}), t);
    case Resume(t) => FinishKnown(s.(woken := s.woken - {t}), t);
    case _ =>
  }

  /** The next step: somebody who promised calls, with the argument that f gives, or somebody goes on. */
  lemma NextStep(p: Params, s: Sys, f: Task -> int) returns (step: Step)
    requires TasksOk(p, s) && (s.promised != {} || s.inc != map[])
    ensures Enabled(s, step) && GoingOn(step) && (step.Enter? ==> step.k == f(step.t))
  {
    if t :| t in s.promised {
      step := Enter(t, f(t));
    } else {
      GoesOn(p, s);
      hide TasksOk;
      var t :| Enabled(s, Retry(t)) || Enabled(s, Serve(t)) || Enabled(s, Reply(t)) || Enabled(s, Resume(t));
      step := if Enabled(s, Retry(t)) then Retry(t) else if Enabled(s, Serve(t)) then Serve(t)
              else if Enabled(s, Reply(t)) then Reply(t) else Resume(t);
    }
  }

  /** A run without new callers, in which those who promised call with these arguments. */
  predicate Continues(steps: seq<Step>, f: Task -> int) {
    forall i :: 0 <= i < |steps| ==> GoingOn(steps[i]) && (steps[i].Enter? ==> steps[i].k == f(steps[i].t))
  }

  lemma OneMore(p: Params, s: Sys, step: Step, rest: seq<Step>, s': Sys, f: Task -> int)
    requires Enabled(s, step) && GoingOn(step) && (step.Enter? ==> step.k == f(step.t))
    requires Run(p, Apply(p, s, step), rest, s') && Continues(rest, f)
    ensures Run(p, s, [step] + rest, s') && Continues([step] + rest, f)
  {
    hide Run, Apply, Enabled;
    RunNext(p, s, step, rest, s');
  }

  lemma {:induction false} Onward(p: Params, s: Sys, f: Task -> int) returns (more: seq<Step>, s': Sys)
    requires TasksOk(p, s)
    ensures Run(p, s, more, s') && Continues(more, f)
    ensures s'.promised == {} && s'.inc == map[] && Known(s) <= Known(s')
    decreases Work(s)
  {
    if s.promised == {} && s.inc == map[] {
      more, s' := [], s;
    } else {
      var step := NextStep(p, s, f);
      StepWork(p, s, step);
      StepTasks(p, s, step);
      StepKnown(p, s, step);
      hide TasksOk, Work, Apply, Enabled, Known, Run, Continues, GoingOn;
      var rest: seq<Step>;
      rest, s' := Onward(p, Apply(p, s, step), f);
      OneMore(p, s, step, rest, s', f);
      more := [step] + rest;
    }
  }

  /**
   From every state of every run, whatever the arguments of those who promised to call,
   the combiner can go on without any new caller until everybody has returned.
   */
  lemma EverybodyReturns(p: Params, s: Sys, steps: seq<Step>, s1: Sys, f: Task -> int) returns (more: seq<Step>, s2: Sys)
    requires Init(p, s) && Run(p, s, steps, s1)
    ensures Run(p, s1, more, s2) && Continues(more, f)
    ensures forall t :: t in s1.promised || t in s1.inc || t in s1.done ==> t in s2.done
  {
    ReachableInv(p, s, steps, s1);
    hide HistoryOk, Run, Init;
    more, s2 := Onward(p, s1, f);
    hide TasksOk;
    forall t | t in s1.promised || t in s1.inc || t in s1.done ensures t in s2.done {
      assert t in Known(s1);
    }
  }
}
