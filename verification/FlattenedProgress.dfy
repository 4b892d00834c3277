/**
 Flattened completions arrive.  Copying a message out, learning that it was sent and
 delivering a copy cannot go on forever; and when nothing of this is left to do, every
 completion that was issued has been applied.  So a phase of the protocol whose work is
 done is detected with flattening, too.
 */
module FlattenedProgress {
  import opened Basics
  import opened Sums
  import opened F = FlattenedCompletions
  import opened J = FlattenedProtocol
  import G = GceProtocol
  import GceRuns
  import GceSafety
  import T = GceTheorems
  import W = GceWake

  // ---------- The completions to one target ----------

  /** The steps that only move completions on. */
  predicate Moves(step: F.Step) {
    step.Serialize? || step.MarkSent? || step.Deliver?
  }

  predicate AllMove(steps: seq<F.Step>) {
    forall i :: 0 <= i < |steps| ==> Moves(steps[i])
  }

  ghost predicate Still(f: Flat) {
    forall step :: Moves(step) ==> !F.Enabled(f, step)
  }

  /** How many moves a message is good for, with those of its copies. */
  function Weight(ch: Channel): nat {
    (if !ch.waiting then 0 else if ch.serialized then 1 else 3) + 3 * ch.toSend
  }

  function Weights(chs: seq<Channel>): nat {
    if chs == [] then 0 else Weight(chs[0]) + Weights(chs[1..])
  }

  function Work(f: Flat): nat {
    Weights(f.channels) + |f.flying|
  }

  lemma {:induction false} WeightsUpdate(chs: seq<Channel>, c: nat, ch: Channel)
    requires c < |chs|
    ensures Weights(chs[c := ch]) + Weight(chs[c]) == Weights(chs) + Weight(ch)
  {
    if c > 0 {
      WeightsUpdate(chs[1..], c - 1, ch);
      assert chs[c := ch][1..] == chs[1..][c - 1 := ch];
    } else {
      assert chs[0 := ch][1..] == chs[1..];
    }
  }

  /** Every move uses up work. */
  lemma MoveWorks(f: Flat, step: F.Step)
    requires F.Enabled(f, step) && Moves(step)
    ensures Work(F.Apply(f, step)) < Work(f)
  {
    match step
    case Serialize(c) => WeightsUpdate(f.channels, c, f.channels[c].(serialized := true));
    case MarkSent(c) => WeightsUpdate(f.channels, c, MarkedSent(f.channels[c]));
    case Deliver(i) =>
  }

  lemma {:induction false} IdleChannels(chs: seq<Channel>)
    requires forall c :: 0 <= c < |chs| ==> !chs[c].waiting && chs[c].toSend == 0
    ensures SumPending(chs) == 0
  {
    if chs != [] { IdleChannels(chs[1..]); }
  }

  /** With no move left, nothing is on its way. */
  lemma StillMeansDone(f: Flat)
    requires Tidy(f) && Still(f)
    ensures Outstanding(f) == 0 && f.flying == []
  {
    forall c | 0 <= c < |f.channels| ensures !f.channels[c].waiting && f.channels[c].toSend == 0 {
      assert !F.Enabled(f, Serialize(c)) && !F.Enabled(f, MarkSent(c));
    }
    IdleChannels(f.channels);
    assert !F.Enabled(f, Deliver(0));
  }

  lemma {:induction false} MovesKeep(f: Flat, steps: seq<F.Step>, f': Flat)
    requires Tidy(f) && Conserved(f) && F.Run(f, steps, f') && AllMove(steps)
    ensures Tidy(f') && Conserved(f') && f'.issued == f.issued && |steps| + Work(f') <= Work(f)
    decreases |steps|
  {
    if steps != [] {
      var f1 := F.Apply(f, steps[0]);
      StepConserves(f, steps[0]);
      MoveWorks(f, steps[0]);
      hide Tidy, Conserved, Work, F.Apply, F.Enabled;
      MoveIssues(f, steps[0]);
      MovesKeep(f1, steps[1..], f');
    }
  }

  lemma MoveIssues(f: Flat, step: F.Step)
    requires F.Enabled(f, step) && Moves(step)
    ensures F.Apply(f, step).issued == f.issued
  {
  }

  /**
   Whatever the network does next, after finitely many moves it has none left, and then
   every completion that was ever issued has been applied.
   */
  lemma MovesApplyAll(n: nat, steps: seq<F.Step>, f: Flat, more: seq<F.Step>, f': Flat)
    requires F.Run(InitFlat(n), steps, f) && F.Run(f, more, f') && AllMove(more)
    ensures |more| <= Work(f)
    ensures Still(f') ==> Outstanding(f') == 0 && f'.applied == f.issued
  {
    InitConserves(n);
    RunConserves(InitFlat(n), steps, f);
    MovesKeep(f, more, f');
    hide F.Run, AllMove, Tidy, Work, Still;
    if Still(f') { StillMeansDone(f'); }
  }

  lemma {:induction false} MoveToTheEnd(f: Flat) returns (more: seq<F.Step>, f': Flat)
    requires Tidy(f) && Conserved(f)
    ensures F.Run(f, more, f') && AllMove(more) && Still(f')
    decreases Work(f)
  {
    if step :| Moves(step) && F.Enabled(f, step) {
      StepConserves(f, step);
      MoveWorks(f, step);
      var rest: seq<F.Step>;
      rest, f' := MoveToTheEnd(F.Apply(f, step));
      more := [step] + rest;
      assert more[1..] == rest;
    } else {
      more, f' := [], f;
    }
  }

  /** From every state some run of moves applies every completion that was issued. */
  lemma CompletionsArrive(n: nat, steps: seq<F.Step>, f: Flat) returns (more: seq<F.Step>, f': Flat)
    requires F.Run(InitFlat(n), steps, f)
    ensures F.Run(f, more, f') && AllMove(more) && Outstanding(f') == 0 && f'.applied == f.issued
  {
    InitConserves(n);
    RunConserves(InitFlat(n), steps, f);
    hide F.Run, AllMove, Tidy, Still, Conserved;
    more, f' := MoveToTheEnd(f);
    MovesApplyAll(n, steps, f, more, f');
  }

  // ---------- With the protocol ----------

  predicate JointMoves(step: JointStep) {
    step.Copies? || step.Frees? || step.Arrives?
  }

  predicate AllJointMove(steps: seq<JointStep>) {
    forall i :: 0 <= i < |steps| ==> JointMoves(steps[i])
  }

  function Works(flats: seq<Flat>): nat {
    if flats == [] then 0 else Work(flats[0]) + Works(flats[1..])
  }

  lemma {:induction false} WorksUpdate(flats: seq<Flat>, d: nat, f: Flat)
    requires d < |flats|
    ensures Works(flats[d := f]) + Work(flats[d]) == Works(flats) + Work(f)
  {
    hide Work;
    if d > 0 {
      WorksUpdate(flats[1..], d - 1, f);
      assert flats[d := f][1..] == flats[1..][d - 1 := f];
    } else {
      assert flats[0 := f][1..] == flats[1..];
    }
  }

  /** A move of the completions to core d is a step of the whole. */
  function Lifted(d: nat, step: F.Step): JointStep
    requires Moves(step)
  {
    match step
    case Serialize(c) => Copies(c, d)
    case MarkSent(c) => Frees(c, d)
    case Deliver(i) => Arrives(d, i)
  }

  lemma LiftedEnabled(j: Joint, d: nat, step: F.Step)
    requires Linked(j) && d < |j.flats| && Moves(step) && F.Enabled(j.flats[d], step)
    ensures JointEnabled(j, Lifted(d, step)) && JointMoves(Lifted(d, step))
    ensures JointApply(j, Lifted(d, step)).flats == j.flats[d := F.Apply(j.flats[d], step)]
  {
    if step.Deliver? {
      SumRemove(j.flats[d].flying, step.i);
    }
  }

  lemma MoveLeaves(j: Joint, step: JointStep)
    requires JointMoves(step) && JointEnabled(j, step)
    ensures JointApply(j, step).s.held == j.s.held && JointApply(j, step).s.stage == j.s.stage
    ensures JointApply(j, step).s.detected == j.s.detected
  {
  }

  lemma {:induction false} JointMoveToTheEnd(n: nat, j: Joint) returns (more: seq<JointStep>, j': Joint)
    requires Linked(j) && G.Reachable(n, j.s)
    ensures JointRun(j, more, j') && AllJointMove(more) && Linked(j') && G.Reachable(n, j'.s)
    ensures forall d :: 0 <= d < |j'.flats| ==> Outstanding(j'.flats[d]) == 0
    ensures j'.s.held == j.s.held && j'.s.stage == j.s.stage && j'.s.detected == j.s.detected
    decreases Works(j.flats)
  {
    hide G.Reachable;
    if d, move :| 0 <= d < |j.flats| && Moves(move) && F.Enabled(j.flats[d], move) {
      more, j' := JointMoveOn(n, j, d, move);
    } else {
      more, j' := [], j;
      forall d | 0 <= d < |j.flats| ensures Outstanding(j.flats[d]) == 0 {
        assert Still(j.flats[d]);
        assert FlatOk(j.flats[d]);
        StillMeansDone(j.flats[d]);
      }
    }
  }

  lemma {:induction false} JointMoveOn(n: nat, j: Joint, d: nat, move: F.Step) returns (more: seq<JointStep>, j': Joint)
    requires Linked(j) && G.Reachable(n, j.s) && d < |j.flats| && Moves(move) && F.Enabled(j.flats[d], move)
    ensures JointRun(j, more, j') && AllJointMove(more) && Linked(j') && G.Reachable(n, j'.s)
    ensures forall d :: 0 <= d < |j'.flats| ==> Outstanding(j'.flats[d]) == 0
    ensures j'.s.held == j.s.held && j'.s.stage == j.s.stage && j'.s.detected == j.s.detected
    decreases Works(j.flats), 0
  {
    var step := Lifted(d, move);
    LiftedEnabled(j, d, move);
    MoveWorks(j.flats[d], move);
    WorksUpdate(j.flats, d, F.Apply(j.flats[d], move));
    JointStepLinked(j, step);
    JointStepReachable(n, j, step);
    MoveLeaves(j, step);
    hide Linked, G.Reachable, JointEnabled, JointApply, Works, Outstanding;
    var rest: seq<JointStep>;
    rest, j' := JointMoveToTheEnd(n, JointApply(j, step));
    more := [step] + rest;
    assert more[1..] == rest;
  }

  /**
   From every state of every run the messages and copies that are under way can all
   arrive, without any task taking part; then no completion is on its way to any core.
   */
  lemma EveryCompletionArrives(n: nat, steps: seq<JointStep>, j: Joint) returns (more: seq<JointStep>, j': Joint)
    requires n >= 1 && JointRun(InitJoint(n), steps, j)
    ensures JointRun(j, more, j') && AllJointMove(more) && j'.s.held == j.s.held
    ensures |j'.flats| == |j'.s.completing| == n
    ensures forall d :: 0 <= d < n ==> Outstanding(j'.flats[d]) == 0 && j'.s.completing[d] == 0
  {
    JointLinked(n, steps, j);
    more, j' := JointMoveToTheEnd(n, j);
    W.ReachableCores(n, j'.s);
    hide G.Reachable, JointRun, FlatOk;
  }

  lemma JointLinked(n: nat, steps: seq<JointStep>, j: Joint)
    requires n >= 1 && JointRun(InitJoint(n), steps, j)
    ensures Linked(j) && G.Reachable(n, j.s)
  {
    hide G.Reachable, JointRun, InitJoint;
    InitLinked(n);
    GceRuns.ReachableInit(n);
    InitJointSys(n);
    JointRunRefines(n, InitJoint(n), steps, j);
  }

  function Entries(k: nat): seq<JointStep> {
    if k == 0 then [] else [Other(G.DeliverEnter)] + Entries(k - 1)
  }

  lemma OneEntry(j: Joint, rest: seq<JointStep>, j': Joint)
    requires |j.flats| == G.Cores(j.s) && G.Enabled(j.s, G.DeliverEnter)
    requires JointRun(j.(s := G.Apply(j.s, G.DeliverEnter)), rest, j')
    ensures JointRun(j, [Other(G.DeliverEnter)] + rest, j')
  {
    hide G.Apply, G.Enabled;
    assert ([Other(G.DeliverEnter)] + rest)[1..] == rest;
  }

  lemma {:induction false} LiftEntries(j: Joint, k: nat, s': G.Sys)
    requires |j.flats| == G.Cores(j.s) && G.Run(j.s, T.EntrySteps(k), s')
    ensures JointRun(j, Entries(k), j.(s := s'))
    decreases k
  {
    hide G.Apply, G.Enabled, JointRun;
    if k > 0 {
      T.StepShape(j.s, G.DeliverEnter);
      assert T.EntrySteps(k)[1..] == T.EntrySteps(k - 1);
      LiftEntries(j.(s := G.Apply(j.s, G.DeliverEnter)), k - 1, s');
      OneEntry(j, Entries(k - 1), j.(s := s'));
    } else {
      NoStep(j);
      assert j.(s := s') == j;
    }
  }

  lemma NoStep(j: Joint)
    ensures JointRun(j, [], j)
  {
  }

  lemma {:induction false} JointConcat(j: Joint, xs: seq<JointStep>, j1: Joint, ys: seq<JointStep>, j2: Joint)
    requires JointRun(j, xs, j1) && JointRun(j1, ys, j2)
    ensures JointRun(j, xs + ys, j2)
    decreases |xs|
  {
    hide JointEnabled, JointApply;
    if xs == [] {
      assert xs + ys == ys;
    } else {
      JointConcat(JointApply(j, xs[0]), xs[1..], j1, ys, j2);
      assert (xs + ys)[1..] == xs[1..] + ys;
    }
  }

  lemma HeldNothing(s: G.Sys)
    requires GceSafety.Inv(s) && forall d :: 0 <= d < G.Cores(s) ==> s.held[d] == multiset{} && s.completing[d] == 0
    ensures T.AllDone(s)
  {
  }

  /** With flattening, too, a phase in which no task holds work any more can be brought to its detection. */
  lemma FlattenedDetected(n: nat, steps: seq<JointStep>, j: Joint) returns (more: seq<JointStep>, j': Joint)
    requires n >= 1 && JointRun(InitJoint(n), steps, j) && j.s.stage == G.Active
    requires forall d :: 0 <= d < |j.s.held| ==> j.s.held[d] == multiset{}
    ensures JointRun(j, more, j') && j'.s.detected == j.s.detected + 1
  {
    JointLinked(n, steps, j);
    var xs, j1 := JointMoveToTheEnd(n, j);
    W.WakeReachableInv(n, j1.s);
    hide JointRun, G.Reachable;
    HeldNothing(j1.s);
    var s' := T.EntriesDetect(j1.s);
    LiftEntries(j1, j1.s.net[G.Enter], s');
    more, j' := xs + Entries(j1.s.net[G.Enter]), j1.(s := s');
    JointConcat(j, xs, j1, Entries(j1.s.net[G.Enter]), j');
  }
}
