/**
 Combined adds respect real time: an add that has returned comes, in the order in which
 the adds are atomic, before every add that is called later.  With CombiningIsAtomic this
 makes the combiner linearizable.
 */
module FetchAddOrder {
  import opened Basics
  import opened FetchAddCombiner
  import opened FetchAddProofs

  // ---------- The history only grows ----------

  ghost predicate Grows(log: seq<Block>, log': seq<Block>) {
    |log| <= |log'| && forall i :: 0 <= i < |log| ==> log[i].taken <= log'[i].taken
  }

  lemma HandGrows(log: seq<Block>, open: Option<nat>, e: Entry)
    ensures Grows(log, Hand(log, open, e)) && |Hand(log, open, e)| == |log|
  {
  }

  lemma StepGrows(p: Params, s: Sys, step: Step)
    requires Enabled(s, step)
    ensures Grows(s.log, Apply(p, s, step).log)
  {
    hide Hand;
    match step
    case Reply(t) => HandGrows(s.log, s.open, Entry(Some(t), s.inc[t], s.calls[t].r));
    case Resume(t) => HandGrows(s.log, s.open, Entry(Some(t), s.inc[t], s.unit.result));
    case _ =>
  }

  lemma GrowsTrans(a: seq<Block>, b: seq<Block>, c: seq<Block>)
    requires Grows(a, b) && Grows(b, c)
    ensures Grows(a, c)
  {
  }

  lemma {:induction false} RunGrows(p: Params, s: Sys, steps: seq<Step>, s': Sys)
    requires Run(p, s, steps, s')
    ensures Grows(s.log, s'.log)
    decreases |steps|
  {
    if steps != [] {
      StepGrows(p, s, steps[0]);
      RunGrows(p, Apply(p, s, steps[0]), steps[1..], s');
      hide Grows, Apply;
      GrowsTrans(s.log, Apply(p, s, steps[0]).log, s'.log);
    }
  }

  // ---------- A later call gets a later share ----------

  predicate ShareAt(log: seq<Block>, u: Task, i: nat, j: nat) {
    i < |log| && j < |log[i].taken| && log[i].taken[j].task == Some(u)
  }

  /** Every share of u is in the n-th add or later, and so is the round it takes part in. */
  ghost predicate Late(s: Sys, u: Task, n: nat) {
    && |s.log| >= n
    && (forall i: nat, j: nat :: ShareAt(s.log, u, i, j) ==> i >= n)
    && (u in Participants(s) && s.open.Some? ==> s.open.value >= n)
  }

  lemma HandLate(log: seq<Block>, open: nat, e: Entry, u: Task, n: nat)
    requires open < |log| && (e.task == Some(u) ==> open >= n)
    requires forall i: nat, j: nat :: ShareAt(log, u, i, j) ==> i >= n
    ensures forall i: nat, j: nat :: ShareAt(Hand(log, Some(open), e), u, i, j) ==> i >= n
  {
    var log' := Hand(log, Some(open), e);
    forall i: nat, j: nat | ShareAt(log', u, i, j) ensures i >= n {
      if i != open || j < |log[open].taken| {
        assert ShareAt(log, u, i, j);
      }
    }
  }

  lemma SnocLate(log: seq<Block>, b: Block, u: Task, n: nat)
    requires |log| >= n && forall i: nat, j: nat :: ShareAt(log, u, i, j) ==> i >= n
    ensures forall i: nat, j: nat :: ShareAt(log + [b], u, i, j) ==> i >= n
  {
    forall i: nat, j: nat | ShareAt(log + [b], u, i, j) ensures i >= n {
      if i < |log| { assert ShareAt(log, u, i, j); }
    }
  }

  /** t, which takes part in the open round, takes its share of it. */
  lemma FinishLate(p: Params, s: Sys, t: Task, u: Task, n: nat)
    requires HandingOut(p, s) && t in s.inc
    requires |s.log| >= n && forall i: nat, j: nat :: ShareAt(s.log, u, i, j) ==> i >= n
    requires t == u || u in Participants(s) ==> s.open.value >= n
    ensures Late(Finish(s, t), u, n)
  {
    var e := Entry(Some(t), s.inc[t], s.unit.result);
    HandLate(s.log, s.open.value, e, u, n);
    HandGrows(s.log, s.open, e);
    assert Participants(Finish(s, t)) == Participants(s);
    hide HandingOut, ShareAt, Hand;
  }

  lemma ReplyLate(p: Params, s: Sys, t: Task, u: Task, n: nat)
    requires TasksOk(p, s) && Late(s, u, n) && Enabled(s, Reply(t))
    ensures Late(Apply(p, s, Reply(t)), u, n)
  {
    var s1 := s.(unit := s.unit.(result := s.calls[t].r), calls := s.calls - {t},
                 woken := s.woken + s.cvReceived, cvReceived := {});
    ReplyHandsOut(p, s, t, s1);
    assert t in Participants(s) && Participants(s1) <= Participants(s) && s1.open == s.open && s1.log == s.log;
    hide TasksOk, Finish, ShareAt;
    FinishLate(p, s1, t, u, n);
  }

  lemma ResumeLate(p: Params, s: Sys, t: Task, u: Task, n: nat)
    requires TasksOk(p, s) && Late(s, u, n) && Enabled(s, Resume(t))
    ensures Late(Apply(p, s, Resume(t)), u, n)
  {
    var s1 := s.(woken := s.woken - {t});
    ResumePhase(p, s, t);
    assert t in Participants(s) && Participants(s1) <= Participants(s) && s1.open == s.open && s1.log == s.log;
    hide TasksOk, Finish, ShareAt;
    FinishLate(p, s1, t, u, n);
  }

  /** Whoever joins joins while no round is open. */
  lemma JoinLate(p: Params, s: Sys, t: Task, u: Task, n: nat)
    requires t in s.inc && Late(s, u, n) && (!s.unit.outstanding ==> s.open == None)
    ensures Late(BlockOrJoin(p, s, t), u, n)
  {
    hide ShareAt;
    var s' := BlockOrJoin(p, s, t);
    assert s'.log == s.log && s'.open == s.open;
    assert s.unit.outstanding ==> Participants(s') == Participants(s);
  }

  lemma PromiseLate(p: Params, s: Sys, t: Task, u: Task, n: nat)
    requires Late(s, u, n) && Enabled(s, Promise(t))
    ensures Late(Apply(p, s, Promise(t)), u, n)
  {
    hide ShareAt;
  }

  lemma ClosedWhenReady(p: Params, s: Sys)
    requires TasksOk(p, s)
    ensures !s.unit.outstanding ==> s.open == None
  {
    hide Places, Adds;
  }

  lemma EnterLate(p: Params, s: Sys, t: Task, k: int, u: Task, n: nat)
    requires TasksOk(p, s) && Late(s, u, n) && Enabled(s, Enter(t, k))
    ensures Late(Apply(p, s, Enter(t, k)), u, n)
  {
    ClosedWhenReady(p, s);
    hide TasksOk, ShareAt, BlockOrJoin;
    JoinLate(p, s.(promised := s.promised - {t}, inc := s.inc[t := k]), t, u, n);
  }

  lemma RetryLate(p: Params, s: Sys, t: Task, u: Task, n: nat)
    requires TasksOk(p, s) && Late(s, u, n) && Enabled(s, Retry(t))
    ensures Late(Apply(p, s, Retry(t)), u, n)
  {
    ClosedWhenReady(p, s);
    hide TasksOk, ShareAt, BlockOrJoin;
    JoinLate(p, s.(unit := s.unit.(readyWaiters := s.unit.readyWaiters - 1), wokenReady := s.wokenReady - {t}), t, u, n);
  }

  lemma AppendLate(s: Sys, b: Block, u: Task, n: nat)
    requires Late(s, u, n)
    ensures |s.log + [b]| >= n && forall i: nat, j: nat :: ShareAt(s.log + [b], u, i, j) ==> i >= n
  {
    SnocLate(s.log, b, u, n);
  }

  lemma StepLate(p: Params, s: Sys, step: Step, u: Task, n: nat)
    requires TasksOk(p, s) && Late(s, u, n) && Enabled(s, step)
    ensures Late(Apply(p, s, step), u, n)
  {
    match step
    case Promise(t) => PromiseLate(p, s, t, u, n);
    case Enter(t, k) => EnterLate(p, s, t, k, u, n);
    case Retry(t) => RetryLate(p, s, t, u, n);
    case Serve(t) => AppendLate(s, Block(s.target, s.calls[t].total, p.initVal, []), u, n);
    case Other(k) => AppendLate(s, Block(s.target, k, 0, [Entry(None, k, s.target)]), u, n);
    case Reply(t) => ReplyLate(p, s, t, u, n);
    case Resume(t) => ResumeLate(p, s, t, u, n);
  }

  lemma {:induction false} RunLate(p: Params, v0: int, s: Sys, steps: seq<Step>, s': Sys, u: Task, n: nat)
    requires Inv(p, v0, s) && Run(p, s, steps, s') && Late(s, u, n)
    ensures Late(s', u, n)
    decreases |steps|
  {
    hide TasksOk, HistoryOk, Late, Apply, Enabled;
    if steps != [] {
      StepLate(p, s, steps[0], u, n);
      StepTasks(p, s, steps[0]);
      StepHistory(p, v0, s, steps[0]);
      RunLate(p, v0, Apply(p, s, steps[0]), steps[1..], s', u, n);
    }
  }

  // ---------- Finding shares ----------

  lemma {:induction false} CountFound(taken: seq<Entry>, t: Task) returns (j: nat)
    requires CountIn(taken, t) >= 1
    ensures j < |taken| && taken[j].task == Some(t)
    decreases |taken|
  {
    var n := |taken| - 1;
    if taken[n].task == Some(t) {
      j := n;
    } else {
      j := CountFound(taken[..n], t);
    }
  }

  lemma {:induction false} ShareFound(log: seq<Block>, t: Task) returns (i: nat, j: nat)
    requires Shares(log, t) >= 1
    ensures ShareAt(log, t, i, j)
    decreases |log|
  {
    var n := |log| - 1;
    if CountIn(log[n].taken, t) >= 1 {
      i := n;
      j := CountFound(log[n].taken, t);
    } else {
      i, j := ShareFound(log[..n], t);
    }
  }

  lemma {:induction false} CountSome(taken: seq<Entry>, t: Task, j: nat)
    requires j < |taken| && taken[j].task == Some(t)
    ensures CountIn(taken, t) >= 1
    decreases |taken|
  {
    if j < |taken| - 1 { CountSome(taken[..|taken| - 1], t, j); }
  }

  lemma {:induction false} SharesSome(log: seq<Block>, t: Task, i: nat, j: nat)
    requires ShareAt(log, t, i, j)
    ensures Shares(log, t) >= 1
    decreases |log|
  {
    var n := |log| - 1;
    if i < n { SharesSome(log[..n], t, i, j); } else { CountSome(log[n].taken, t, j); }
  }

  /** Two shares in different adds are two. */
  lemma {:induction false} OneShare(log: seq<Block>, t: Task, i: nat, j: nat, i': nat, j': nat)
    requires ShareAt(log, t, i, j) && ShareAt(log, t, i', j') && i <= i' && Shares(log, t) <= 1
    ensures i == i'
    decreases |log|
  {
    if i < i' {
      var n := |log| - 1;
      assert ShareAt(log[..n], t, i, j);
      if i' < n {
        assert ShareAt(log[..n], t, i', j');
        OneShare(log[..n], t, i, j, i', j');
      } else {
        SharesSome(log[..n], t, i, j);
        CountSome(log[n].taken, t, j');
      }
    }
  }

  // ---------- The order of atomic adds ----------

  /** Where the shares of the i-th add begin in the order of all shares. */
  function Offset(log: seq<Block>, i: nat): nat
    requires i <= |log|
  {
    |Flatten(log[..i])|
  }

  lemma {:induction false} FlattenAt(log: seq<Block>, i: nat, j: nat)
    requires i < |log| && j < |log[i].taken|
    ensures Offset(log, i) + j < Offset(log, i + 1) <= |Flatten(log)| && Flatten(log)[Offset(log, i) + j] == log[i].taken[j]
    decreases |log|
  {
    var n := |log| - 1;
    if i == n {
      assert log[..n + 1] == log;
    } else {
      FlattenAt(log[..n], i, j);
      assert log[..n][..i] == log[..i] && log[..n][..i + 1] == log[..i + 1];
    }
  }

  lemma {:induction false} OffsetMonotone(log: seq<Block>, i: nat, i': nat)
    requires i <= i' <= |log|
    ensures Offset(log, i) <= Offset(log, i')
    decreases i'
  {
    if i < i' {
      OffsetMonotone(log, i, i' - 1);
      assert log[..i'][..i' - 1] == log[..i' - 1];
    }
  }

  /** Somewhere in the atomic order t's add comes before u's. */
  ghost predicate Before(log: seq<Block>, t: Task, u: Task) {
    exists a, b :: 0 <= a < b < |Flatten(log)| && Flatten(log)[a].task == Some(t) && Flatten(log)[b].task == Some(u)
  }

  lemma BlocksBefore(log: seq<Block>, t: Task, i: nat, j: nat, u: Task, i': nat, j': nat)
    requires ShareAt(log, t, i, j) && ShareAt(log, u, i', j') && i < i'
    ensures Before(log, t, u)
  {
    FlattenAt(log, i, j);
    FlattenAt(log, i', j');
    OffsetMonotone(log, i + 1, i');
    hide Flatten;
    var a, b := Offset(log, i) + j, Offset(log, i') + j';
    assert a < b;
  }

  /** What a task that has not called yet is: nowhere, and without a share. */
  lemma NotCalledLate(p: Params, v0: int, s: Sys, u: Task)
    requires Inv(p, v0, s) && u !in s.inc && u !in s.done
    ensures Late(s, u, |s.log|)
  {
    assert PlaceOk(s, {}, u);
    hide TasksOk;
    assert Shares(s.log, u) == 0;
    forall i: nat, j: nat ensures !ShareAt(s.log, u, i, j) {
      if ShareAt(s.log, u, i, j) { SharesSome(s.log, u, i, j); }
    }
  }

  /** The adds on the target at the time a task has returned include the one with its share, and no later add has one. */
  lemma ReturnedEarly(p: Params, s: Sys, xs: seq<Step>, s1: Sys, ys: seq<Step>, s2: Sys, t: Task, i: nat, j: nat)
    requires Init(p, s) && Run(p, s, xs, s1) && Run(p, s1, ys, s2) && t in s1.done && ShareAt(s2.log, t, i, j)
    ensures i < |s1.log|
  {
    ReachableInv(p, s, xs, s1);
    RunInv(p, s.target, s1, ys, s2);
    RunGrows(p, s1, ys, s2);
    hide Run, TasksOk, Init;
    var i0, j0 := ShareFound(s1.log, t);
    assert ShareAt(s2.log, t, i0, j0);
    assert Shares(s2.log, t) <= 1;
    if i >= |s1.log| {
      OneShare(s2.log, t, i0, j0, i, j);
    }
  }

  /** A call made after s1 has its share in an add made after s1. */
  lemma CalledLate(p: Params, s: Sys, xs: seq<Step>, s1: Sys, ys: seq<Step>, s2: Sys, u: Task, i: nat, j: nat)
    requires Init(p, s) && Run(p, s, xs, s1) && Run(p, s1, ys, s2) && u !in s1.inc && u !in s1.done && ShareAt(s2.log, u, i, j)
    ensures i >= |s1.log|
  {
    ReachableInv(p, s, xs, s1);
    NotCalledLate(p, s.target, s1, u);
    RunLate(p, s.target, s1, ys, s2, u, |s1.log|);
    hide Run, Inv, Init;
  }

  /**
   In every run: of two adds through the combiner, one that had returned when the other was
   not yet called comes first in the order in which they are atomic.
   */
  lemma RealTimeOrder(p: Params, s: Sys, xs: seq<Step>, s1: Sys, ys: seq<Step>, s2: Sys, t: Task, u: Task)
    requires Init(p, s) && Run(p, s, xs, s1) && Run(p, s1, ys, s2)
    requires t in s1.done && u !in s1.inc && u !in s1.done && u in s2.done
    ensures Before(s2.log, t, u)
  {
    ReachableInv(p, s, xs, s1);
    RunInv(p, s.target, s1, ys, s2);
    RunGrows(p, s1, ys, s2);
    hide TasksOk;
    var i, j := ShareFound(s1.log, t);
    var i', j' := ShareFound(s2.log, u);
    assert ShareAt(s2.log, t, i, j);
    CalledLate(p, s, xs, s1, ys, s2, u, i', j');
    hide Run, Init, Inv, Grows;
    BlocksBefore(s2.log, t, i, j, u, i', j');
  }
}
