/** Putting runs of the GlobalCompletionEvent protocol together. */
module GceRuns {
  import opened GceProtocol

  lemma RunCons(s: Sys, step: Step, rest: seq<Step>, s': Sys)
    requires Enabled(s, step) && Run(Apply(s, step), rest, s')
    ensures Run(s, [step] + rest, s')
  {
    assert ([step] + rest)[1..] == rest;
  }

  lemma RunOne(s: Sys, step: Step)
    requires Enabled(s, step)
    ensures Run(s, [step], Apply(s, step))
  {
    assert Run(Apply(s, step), [], Apply(s, step));
    RunCons(s, step, [], Apply(s, step));
    assert [step] + [] == [step];
  }

  lemma RunFirst(s: Sys, steps: seq<Step>, s': Sys)
    requires Run(s, steps, s') && steps != []
    ensures Enabled(s, steps[0]) && Run(Apply(s, steps[0]), steps[1..], s')
  {
  }

  lemma {:induction false} RunConcat(s: Sys, xs: seq<Step>, s1: Sys, ys: seq<Step>, s2: Sys)
    requires Run(s, xs, s1) && Run(s1, ys, s2)
    ensures Run(s, xs + ys, s2)
    decreases |xs|
  {
    hide Enabled, Apply;
    if xs == [] {
      assert xs + ys == ys && s1 == s;
    } else {
      hide Run;
      RunFirst(s, xs, s1);
      RunConcat(Apply(s, xs[0]), xs[1..], s1, ys, s2);
      RunCons(s, xs[0], xs[1..] + ys, s2);
      assert [xs[0]] + (xs[1..] + ys) == xs + ys;
    }
  }

  lemma RunSnoc(s: Sys, steps: seq<Step>, s': Sys, step: Step)
    requires Run(s, steps, s') && Enabled(s', step)
    ensures Run(s, steps + [step], Apply(s', step))
  {
    RunOne(s', step);
    RunConcat(s, steps, s', [step], Apply(s', step));
  }

  lemma ReachableStep(n: nat, s: Sys, step: Step)
    requires Reachable(n, s) && Enabled(s, step)
    ensures Reachable(n, Apply(s, step))
  {
    var steps :| Run(InitSys(n), steps, s);
    RunSnoc(InitSys(n), steps, s, step);
  }

  lemma ReachableInit(n: nat)
    ensures Reachable(n, InitSys(n))
  {
    assert Run(InitSys(n), [], InitSys(n));
  }
}
