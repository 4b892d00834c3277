/** A run of the GlobalCompletionEvent protocol on two cores in which an answer to `wait` comes too late. */
module GceLateAnswer {
  import opened Basics
  import opened GceCore
  import opened GceProtocol
  import opened GceRuns
  import opened GceTwoCores
  import opened GceCausality
  import P = GceProgress

  /** Task w asks the master on the other core, where the phase that t is opening is not known yet, and is answered. */
  lemma AskOnTwo(s: Sys, t: Task, w: Task) returns (s': Sys)
    requires Two(s, Local(1, true, 1, 0, [], []), Quiet(false, [], []), multiset{}, map[t := Broadcasting(0, {1}, 1)], multiset{t})
    requires t != w && s.stage == Active && s.opener == Some(t)
    ensures Two(s', Local(1, true, 1, 0, [], []), Quiet(false, [], []), multiset{},
                map[w := Probed(1, 1)][t := Broadcasting(0, {1}, 1)], multiset{t})
    ensures s'.stage == Active && s'.opener == Some(t)
  {
    ReachableStep(2, s, WaitStep(w, 1));
    var s1 := Apply(s, WaitStep(w, 1));
    ReachableStep(2, s1, DeliverProbe(w));
    s' := Apply(s1, DeliverProbe(w));
    assert s'.blocked == map[w := Probed(1, 1)][t := Broadcasting(0, {1}, 1)];
  }

  /** The answer arrives when the phase is over. */
  lemma AnswerOnTwo(s: Sys, w: Task, net: multiset<Msg>) returns (s': Sys)
    requires Two(s, Quiet(false, [], []), Quiet(false, [], []), net, map[w := Probed(1, 1)], multiset{}) && s.stage == Idle
    ensures Two(s', Quiet(false, [], []), Quiet(false, [w], []), net, map[w := OnCv(1)], multiset{}) && s'.stage == Idle
  {
    ReachableStep(2, s, DeliverProbed(w));
    s' := Apply(s, DeliverProbed(w));
    assert [w] + [] == [w];
    assert s'.blocked == map[w := OnCv(1)];
  }

  /**
   The master's answer to wait can come too late.  It says that a phase is open, and
   arrives when the phase is over and the core has been reset: the task is suspended
   between phases, and nothing in flight will bring it back.
   */
  lemma LateAnswer()
    ensures exists s, w :: Reachable(2, s) && s.stage == Idle && P.Unheld(s) && InWait(s, w) && !P.CanReturn(s, w)
  {
    var t, w := Task(0), Task(1);
    var s := InitOnTwo();
    s := EnrollOnTwo(s, t, Quiet(false, [], []), multiset{}, map[]);
    s := AskOnTwo(s, t, w);
    s := SpreadOnTwo(s, t, Quiet(false, [], []), multiset{}, map[w := Probed(1, 1)]);
    s := ReturnOnTwo(s, t, Quiet(true, [], []), multiset{}, map[w := Probed(1, 1)]);
    s := EndOnTwo(s, t, [], map[w := Probed(1, 1)]);
    s := AnswerOnTwo(s, w, multiset{Wake(1)});
    hide Reachable;
    assert P.Unheld(s) && InWait(s, w) && !P.WillReturn(s, w);
    hide P.CanReturn, P.WillReturn, Two;
    P.WaitReturnsIff(2, s, w);
  }
}
