/**
 Safety of the GlobalCompletionEvent protocol: the invariant of every run, and
 what it says about detection and about the barrier counter.
 */
module GceSafety {
  import opened Basics
  import opened GceCore
  import opened GceProtocol

  // ---------- The invariant ----------

  /** A core's count is the number of its enrollments that are held or being completed. */
  ghost predicate Units(s: Sys)
    requires Shape(s)
  {
    forall c :: 0 <= c < Cores(s) ==> s.locals[c].count == |s.held[c]| + s.completing[c]
  }

  /** The barrier counter counts the counted cores and the entries still in flight. */
  ghost predicate Barrier(s: Sys)
    requires Shape(s)
  {
    && s.locals[MASTER].coresOut == |s.counted| + s.net[Enter]
    && s.counted <= CoreSet(Cores(s))
    && (forall c :: c in s.counted ==> s.locals[c].count > 0)
  }

  ghost predicate IsCancelling(blocked: map<Task, Block>, t: Task, c: Core) {
    t in blocked && blocked[t] == Cancelling(c)
  }

  /**
   A cancelling task holds work on its core and, unless it opens the phase or broke
   the rule, on a core that got work earlier.
   */
  ghost predicate CancelOk(s: Sys, t: Task, c: Core)
    requires Shape(s)
  {
    && c < Cores(s) && c != MASTER && c !in s.counted && t in s.held[c]
    && (s.opener == Some(t) || c in s.rogue ||
        (t in s.via && s.via[t] < Cores(s) && t in s.held[s.via[t]] && s.rank[s.via[t]] < s.rank[c]))
  }

  ghost predicate Cancels(s: Sys)
    requires Shape(s)
  {
    && (forall t, c :: IsCancelling(s.blocked, t, c) ==> CancelOk(s, t, c))
    && (forall t, u, c :: IsCancelling(s.blocked, t, c) && IsCancelling(s.blocked, u, c) ==> t == u)
  }

  /** A core with work is counted, or its cancel request is on the way. */
  ghost predicate Accounted(s: Sys, c: Core) {
    c in s.counted || exists t :: IsCancelling(s.blocked, t, c)
  }

  ghost predicate AllAccounted(s: Sys)
    requires Shape(s)
  {
    forall c {:trigger Accounted(s, c)} :: 0 <= c < Cores(s) && s.locals[c].count > 0 ==> Accounted(s, c)
  }

  ghost predicate Ranks(s: Sys)
    requires Shape(s)
  {
    forall c :: 0 <= c < Cores(s) && s.locals[c].count > 0 ==> s.rank[c] < s.clock
  }

  /** A broadcast is the opener's, who holds work on a counted core; the cores done know of the event. */
  ghost predicate BroadcastOk(s: Sys, t: Task)
    requires Shape(s) && t in s.blocked && s.blocked[t].Broadcasting?
  {
    var b := s.blocked[t];
    && s.opener == Some(t) && b.at < Cores(s) && b.at in s.counted && t in s.held[b.at]
    && b.todo <= CoreSet(Cores(s)) && b.at !in b.todo && |b.todo| <= b.missing && b.missing >= 1
    && (forall d :: 0 <= d < Cores(s) && d !in b.todo ==> s.locals[d].inProgress)
  }

  /** Replies and broadcasts of blocked tasks. */
  ghost predicate Replies(s: Sys)
    requires Shape(s)
  {
    && (forall t :: t in s.blocked && s.blocked[t].Cancelled? ==>
          && s.blocked[t].at < Cores(s) && s.blocked[t].at in s.counted && t in s.held[s.blocked[t].at]
          && s.blocked[t].co >= 1 && (s.blocked[t].co == 1 <==> s.opener == Some(t)))
    && (forall t :: t in s.blocked && s.blocked[t].Broadcasting? ==> BroadcastOk(s, t))
  }

  ghost predicate InEnroll(blocked: map<Task, Block>, t: Task) {
    t in blocked && (blocked[t].Cancelling? || blocked[t].Cancelled? || blocked[t].Broadcasting?)
  }

  /**
   While the phase is being opened, its opener is in enroll and holds work; as long as
   its request has not reached the master, nobody else does.
   */
  ghost predicate Opening(s: Sys)
    requires Shape(s)
  {
    s.opener.Some? ==>
      var t := s.opener.value;
      && s.stage == Active && InEnroll(s.blocked, t)
      && var c := s.blocked[t].at;
      && c < Cores(s) && t in s.held[c]
      && (s.blocked[t].Cancelling? ==>
            && s.counted == {} && Enter !in s.net
            && (forall d :: 0 <= d < Cores(s) ==> s.completing[d] == 0)
            && (forall d :: 0 <= d < Cores(s) && d != c ==> s.held[d] == multiset{})
            && (forall u :: u in s.held[c] ==> u == t))
  }

  /** The phase is open, and the master knows of it. */
  predicate Running(s: Sys)
    requires Shape(s)
  {
    s.stage == Active && s.locals[MASTER].coresOut > 0
  }

  ghost function ToReset(s: Sys): set<Core> {
    set c | c in CoreSet(Cores(s)) && Reset(c) in s.net
  }

  ghost predicate NothingHeld(s: Sys)
    requires Shape(s)
  {
    forall c :: 0 <= c < Cores(s) ==> s.held[c] == multiset{} && s.completing[c] == 0
  }

  ghost predicate Stages(s: Sys)
    requires Shape(s)
  {
    && (s.stage != Active ==> NothingHeld(s) && s.counted == {} && Enter !in s.net && s.opener == None)
    && (s.stage == Active && s.opener == None ==>
          s.locals[MASTER].coresOut >= 1 && (forall d :: 0 <= d < Cores(s) ==> s.locals[d].inProgress))
    && (s.stage == Resetting ==>
          && s.locals[MASTER].wakingOut == |ToReset(s)| + s.net[ResetAck] >= 1
          && (forall c: Core :: s.net[Reset(c)] <= 1))
    && (s.stage != Resetting ==>
          s.locals[MASTER].wakingOut == 0 && ResetAck !in s.net && (forall c: Core :: Reset(c) !in s.net))
    && (forall c: Core :: Reset(c) in s.net ==> c < Cores(s))
  }

  ghost predicate Counting(s: Sys) {
    Shape(s) && !s.failed && Units(s) && Barrier(s) && Ranks(s)
  }

  ghost predicate Causality(s: Sys)
    requires Shape(s)
  {
    Cancels(s) && AllAccounted(s) && Replies(s) && Opening(s)
  }

  /** The tasks on a core's waiter lists are suspended there, and each is on one list, once. */
  ghost predicate Lists(s: Sys)
    requires Shape(s)
  {
    && (forall c, t :: 0 <= c < Cores(s) && t in s.locals[c].cv ==> t in s.blocked && s.blocked[t] == OnCv(c))
    && (forall c, t :: 0 <= c < Cores(s) && t in s.locals[c].waking ==> t in s.blocked && s.blocked[t] == OnCv(c))
    && (forall c :: 0 <= c < Cores(s) ==> NoDup(s.locals[c].cv + s.locals[c].waking))
  }

  ghost predicate Inv(s: Sys) {
    Counting(s) && Causality(s) && Stages(s)
  }

  // ---------- The chain from a core with work to a counted core ----------

  /**
   Following `via` from a core with work reaches earlier and earlier cores, and ends at a
   counted one, if no core on the way got its work by breaking the rule.
   */
  lemma {:induction false} ChainToCounted(s: Sys, c: Core)
    requires Inv(s) && Running(s)
    requires c < Cores(s) && s.locals[c].count > 0
    requires forall x :: 0 <= x < Cores(s) && x in s.rogue && s.locals[x].count > 0 ==> s.rank[c] < s.rank[x]
    ensures s.counted != {}
    decreases s.rank[c]
  {
    if c !in s.counted {
      assert Accounted(s, c);
      var t :| IsCancelling(s.blocked, t, c);
      assert CancelOk(s, t, c) && s.opener != Some(t);
      var d := s.via[t];
      assert t in s.held[d] && |s.held[d]| > 0;
      ChainToCounted(s, d);
    }
  }

  /** When one entry remains and nobody has broken the rule, no enrollment is outstanding anywhere. */
  lemma LastEntryMeansDone(s: Sys)
    requires Inv(s) && s.rogue == {} && Enter in s.net && CompletesBarrier(s.locals[MASTER])
    ensures s.stage == Active && s.opener == None && s.counted == {} && s.net[Enter] == 1
    ensures NothingHeld(s) && (forall c :: 0 <= c < Cores(s) ==> s.locals[c].count == 0)
  {
    LastEntry(s);
    forall c | 0 <= c < Cores(s)
      ensures s.held[c] == multiset{} && s.completing[c] == 0 && s.locals[c].count == 0
    {
      if s.locals[c].count > 0 {
        ChainToCounted(s, c);
        assert false;
      }
      assert |s.held[c]| == 0;
    }
  }

  /** The entry that takes the counter to zero is the last one, and comes when no core is counted. */
  lemma LastEntry(s: Sys)
    requires Inv(s) && Enter in s.net && CompletesBarrier(s.locals[MASTER])
    ensures Running(s) && s.opener == None && s.counted == {} && s.net[Enter] == 1
  {
    assert s.stage == Active && s.counted == {};
  }

  // ---------- Every step keeps the invariant ----------

  lemma InitInv(n: nat)
    requires n >= 1
    ensures Inv(InitSys(n))
  {
    var s := InitSys(n);
    assert ToReset(s) == {};
  }

  /** A core that was accounted for stays so when the cancelling tasks and the counted cores do. */
  lemma KeepAccounted(s: Sys, s': Sys, c: Core)
    requires Accounted(s, c)
    requires c in s.counted ==> c in s'.counted
    requires forall t :: IsCancelling(s.blocked, t, c) ==> IsCancelling(s'.blocked, t, c)
    ensures Accounted(s', c)
  {
    if c !in s.counted {
      var t :| IsCancelling(s.blocked, t, c);
      assert IsCancelling(s'.blocked, t, c);
    }
  }

  /** A running task with an enrollment: the phase is open and its opener's request has reached the master. */
  lemma HolderIsRunning(s: Sys, t: Task, c: Core)
    requires Inv(s) && c < Cores(s) && t in s.held[c] && t !in s.blocked
    ensures Running(s) && (s.opener.Some? ==> !s.blocked[s.opener.value].Cancelling?)
  {
    OutIsRunning(s);
  }

  /** The counter is positive in every open phase, except while the opener's request is in flight. */
  lemma OutIsRunning(s: Sys)
    requires Inv(s)
    ensures Running(s) <==> s.stage == Active && (s.opener.Some? ==> !s.blocked[s.opener.value].Cancelling?)
    ensures s.locals[MASTER].coresOut > 0 ==> Running(s)
  {
    if s.opener.Some? && !s.blocked[s.opener.value].Cancelling? {
      assert s.blocked[s.opener.value].at in s.counted;
    }
  }

  /** From s to s' no task moves on in enroll, blocked tasks keep their work, and no core gets its first work. */
  ghost predicate SameEnrolls(s: Sys, s': Sys) {
    && Shape(s) && Shape(s') && Cores(s') == Cores(s)
    && s'.blocked == s.blocked && s'.opener == s.opener && s'.via == s.via && s'.rogue == s.rogue && s'.rank == s.rank
    && s'.counted <= s.counted
    && (forall t, d :: 0 <= d < Cores(s) && t in s.blocked && t in s.held[d] ==> t in s'.held[d])
    && (forall d :: 0 <= d < Cores(s) && s'.locals[d].count > 0 ==> s.locals[d].count > 0 && (d in s.counted ==> d in s'.counted))
    && (forall d :: 0 <= d < Cores(s) && s.locals[d].inProgress ==> s'.locals[d].inProgress)
  }

  lemma SameEnrollsCancels(s: Sys, s': Sys)
    requires SameEnrolls(s, s') && Cancels(s) && AllAccounted(s)
    ensures Cancels(s') && AllAccounted(s')
  {
    forall w, d | IsCancelling(s'.blocked, w, d) ensures CancelOk(s', w, d) {
      assert IsCancelling(s.blocked, w, d) && CancelOk(s, w, d);
    }
    forall d | 0 <= d < Cores(s') && s'.locals[d].count > 0 ensures Accounted(s', d) {
      KeepAccounted(s, s', d);
    }
  }

  lemma SameEnrollsReplies(s: Sys, s': Sys)
    requires SameEnrolls(s, s') && Replies(s) && Units(s')
    ensures Replies(s')
  {
    forall w | w in s'.blocked && (s'.blocked[w].Cancelled? || s'.blocked[w].Broadcasting?)
      ensures s'.blocked[w].at in s'.counted
    {
      assert s'.blocked[w].Broadcasting? ==> BroadcastOk(s, w);
      assert w in s'.held[s'.blocked[w].at] && |s'.held[s'.blocked[w].at]| > 0;
    }
    hide CoreSet, Units;
    forall w | w in s'.blocked && s'.blocked[w].Broadcasting? ensures BroadcastOk(s', w) {
      assert BroadcastOk(s, w);
    }
    hide BroadcastOk;
  }

  lemma SameEnrollsCausality(s: Sys, s': Sys)
    requires SameEnrolls(s, s') && Causality(s) && Units(s') && Opening(s')
    ensures Causality(s')
  {
    SameEnrollsCancels(s, s');
    SameEnrollsReplies(s, s');
  }

  // -- handing an enrollment over

  lemma HandOffCounting(s: Sys, t: Task, u: Task, c: Core)
    requires Counting(s) && Enabled(s, HandOff(t, u, c))
    ensures Counting(DoHandOff(s, t, u, c))
  {
  }

  lemma HandOffCausality(s: Sys, t: Task, u: Task, c: Core)
    requires Inv(s) && Enabled(s, HandOff(t, u, c))
    ensures Causality(DoHandOff(s, t, u, c)) && s.stage == Active
  {
    var s' := DoHandOff(s, t, u, c);
    HolderIsRunning(s, t, c);
    HandOffCounting(s, t, u, c);
    hide Stages, Cancels, AllAccounted, Replies;
    SameEnrollsCausality(s, s');
  }

  lemma HandOffInv(s: Sys, t: Task, u: Task, c: Core)
    requires Inv(s) && Enabled(s, HandOff(t, u, c))
    ensures Inv(DoHandOff(s, t, u, c))
  {
    HandOffCounting(s, t, u, c);
    HandOffCausality(s, t, u, c);
  }

  // -- completing enrollments

  /** s is s0 with k enrollments on core d given up, about to be taken off the count. */
  ghost predicate GivesUp(s0: Sys, s: Sys, d: Core, k: nat) {
    && Inv(s0) && Running(s0)
    && Shape(s) && Cores(s) == Cores(s0) && d < Cores(s)
    && s == s0.(held := s.held, completing := s.completing)
    && 1 <= k && |s.held[d]| + s.completing[d] + k == |s0.held[d]| + s0.completing[d]
    && (forall c :: 0 <= c < Cores(s) && c != d ==> s.held[c] == s0.held[c] && s.completing[c] == s0.completing[c])
    && (forall t :: t in s.blocked && t in s0.held[d] ==> t in s.held[d])
  }

  lemma CancellingKeepsWork(s0: Sys, s: Sys, d: Core, k: nat)
    requires GivesUp(s0, s, d, k)
    ensures forall w :: IsCancelling(s0.blocked, w, d) ==> |s.held[d]| > 0
  {
    forall w | IsCancelling(s0.blocked, w, d) ensures |s.held[d]| > 0 {
      assert CancelOk(s0, w, d) && w in s.held[d];
    }
  }

  /** A core that runs out of work was counted: nobody there can still be cancelling. */
  lemma GivesUpLast(s0: Sys, s: Sys, d: Core, k: nat)
    requires GivesUp(s0, s, d, k) && s.locals[d].count == k
    ensures d in s0.counted
  {
    CancellingKeepsWork(s0, s, d, k);
    assert Accounted(s0, d);
  }

  lemma CompleteOnUnits(s0: Sys, s: Sys, d: Core, k: nat)
    requires GivesUp(s0, s, d, k)
    ensures Shape(CompleteOn(s, d, k)) && Units(CompleteOn(s, d, k)) && Ranks(CompleteOn(s, d, k))
  {
    hide Causality, Stages, Barrier;
  }

  lemma CompleteOnCounting(s0: Sys, s: Sys, d: Core, k: nat)
    requires GivesUp(s0, s, d, k)
    ensures Counting(CompleteOn(s, d, k))
  {
    CompleteOnUnits(s0, s, d, k);
    if s.locals[d].count == k {
      GivesUpLast(s0, s, d, k);
    }
    hide Causality, Stages, Units, Ranks;
  }

  lemma CompleteOnSame(s0: Sys, s: Sys, d: Core, k: nat)
    requires GivesUp(s0, s, d, k)
    ensures SameEnrolls(s0, CompleteOn(s, d, k))
  {
    hide Causality, Stages, Barrier;
  }

  lemma CompleteOnOpening(s0: Sys, s: Sys, d: Core, k: nat)
    requires GivesUp(s0, s, d, k)
    ensures Shape(CompleteOn(s, d, k)) && Opening(CompleteOn(s, d, k))
  {
    OutIsRunning(s0);
    hide Counting, Stages, Cancels, AllAccounted, Replies;
  }

  lemma CompleteOnCausality(s0: Sys, s: Sys, d: Core, k: nat)
    requires GivesUp(s0, s, d, k)
    ensures Shape(CompleteOn(s, d, k)) && Causality(CompleteOn(s, d, k))
  {
    CompleteOnUnits(s0, s, d, k);
    CompleteOnSame(s0, s, d, k);
    CompleteOnOpening(s0, s, d, k);
    hide CompleteOn, SameEnrolls, Opening, Units, Cancels, AllAccounted, Replies;
    SameEnrollsCausality(s0, CompleteOn(s, d, k));
  }

  lemma CompleteOnStages(s0: Sys, s: Sys, d: Core, k: nat)
    requires GivesUp(s0, s, d, k)
    ensures Stages(CompleteOn(s, d, k))
  {
  }

  lemma CompleteOnInv(s0: Sys, s: Sys, d: Core, k: nat)
    requires GivesUp(s0, s, d, k)
    ensures Inv(CompleteOn(s, d, k))
  {
    CompleteOnCounting(s0, s, d, k);
    CompleteOnCausality(s0, s, d, k);
    CompleteOnStages(s0, s, d, k);
  }

  lemma DeliveryGivesUp(s: Sys, d: Core, k: nat)
    requires Inv(s) && Enabled(s, DeliverCompletion(d, k))
    ensures GivesUp(s, s.(completing := s.completing[d := s.completing[d] - k]), d, k)
  {
    OutIsRunning(s);
    assert Running(s);
    hide Counting, Causality, Stages;
  }

  lemma DeliverCompletionInv(s: Sys, d: Core, k: nat)
    requires Inv(s) && Enabled(s, DeliverCompletion(d, k))
    ensures Inv(DoDeliverCompletion(s, d, k))
  {
    hide Inv, GivesUp, CompleteOn;
    DeliveryGivesUp(s, d, k);
    CompleteOnInv(s, s.(completing := s.completing[d := s.completing[d] - k]), d, k);
  }

  /** A remote completion only moves enrollments from held to being completed. */
  function SentOff(s: Sys, t: Task, d: Core, k: nat): Sys
    requires Shape(s) && d < Cores(s) && k <= s.held[d][t]
  {
    s.(held := s.held[d := s.held[d][t := s.held[d][t] - k]], completing := s.completing[d := s.completing[d] + k])
  }

  lemma SendCompletionCounting(s: Sys, t: Task, d: Core, k: nat)
    requires Inv(s) && d < Cores(s) && t !in s.blocked && 1 <= k <= s.held[d][t]
    requires Running(s)
    ensures Counting(SentOff(s, t, d, k))
  {
    TakesAway(s.held[d], t, k);
    hide Causality, Stages;
  }

  lemma SendCompletionCausality(s: Sys, t: Task, d: Core, k: nat)
    requires Inv(s) && d < Cores(s) && t !in s.blocked && 1 <= k <= s.held[d][t]
    requires Running(s)
    ensures Shape(SentOff(s, t, d, k)) && Causality(SentOff(s, t, d, k))
  {
    var s' := SentOff(s, t, d, k);
    OutIsRunning(s);
    SendCompletionCounting(s, t, d, k);
    hide Stages, Cancels, AllAccounted, Replies;
    SameEnrollsCausality(s, s');
  }

  lemma SendCompletionStages(s: Sys, t: Task, d: Core, k: nat)
    requires Inv(s) && d < Cores(s) && t !in s.blocked && 1 <= k <= s.held[d][t]
    requires Running(s)
    ensures Shape(SentOff(s, t, d, k)) && Stages(SentOff(s, t, d, k))
  {
    hide Causality;
  }

  lemma SendCompletionInv(s: Sys, t: Task, d: Core, k: nat)
    requires Inv(s) && d < Cores(s) && t !in s.blocked && 1 <= k <= s.held[d][t]
    requires Running(s)
    ensures Inv(SentOff(s, t, d, k))
  {
    SendCompletionCounting(s, t, d, k);
    SendCompletionCausality(s, t, d, k);
    SendCompletionStages(s, t, d, k);
    hide Counting, Causality, Stages;
  }

  lemma CompleterIsActive(s: Sys, t: Task, c: Core, d: Core, k: nat)
    requires Inv(s) && Enabled(s, CompleteStep(t, c, d, k))
    ensures Running(s)
  {
    assert t in s.held[d];
    HolderIsRunning(s, t, d);
  }

  /** Completing k of its enrollments here, a running task gives them up. */
  lemma CompleterGivesUp(s: Sys, t: Task, d: Core, k: nat)
    requires Inv(s) && Running(s) && d < Cores(s) && t !in s.blocked && 1 <= k <= s.held[d][t]
    ensures GivesUp(s, s.(held := s.held[d := s.held[d][t := s.held[d][t] - k]]), d, k)
  {
    hide Causality, Stages, Units, Barrier, Ranks;
    TakesAway(s.held[d], t, k);
  }

  lemma TakesAway(held: multiset<Task>, t: Task, k: nat)
    requires k <= held[t]
    ensures |held[t := held[t] - k]| + k == |held|
    ensures forall u :: u != t && u in held ==> u in held[t := held[t] - k]
  {
  }

  lemma CompleteInv(s: Sys, t: Task, c: Core, d: Core, k: nat)
    requires Inv(s) && Enabled(s, CompleteStep(t, c, d, k))
    ensures Inv(DoComplete(s, t, c, d, k))
  {
    hide Inv, GivesUp, CompleteOn;
    CompleterIsActive(s, t, c, d, k);
    if c == d {
      CompleterGivesUp(s, t, d, k);
      CompleteOnInv(s, s.(held := s.held[d := s.held[d][t := s.held[d][t] - k]]), d, k);
    } else {
      SendCompletionInv(s, t, d, k);
    }
  }

  // -- steps that touch neither counts nor the enroll path: wait, probes and wakes

  /** s' differs from s only in waiter lists, probes and history of waiters. */
  ghost predicate SameForEnroll(s: Sys, s': Sys) {
    && Shape(s) && Shape(s') && Cores(s') == Cores(s)
    && s'.completing == s.completing && s'.failed == s.failed && s'.held == s.held && s'.counted == s.counted
    && s'.rank == s.rank && s'.clock == s.clock && s'.via == s.via && s'.rogue == s.rogue && s'.opener == s.opener && s'.stage == s.stage
    && s'.net[Enter] == s.net[Enter] && s'.net[ResetAck] == s.net[ResetAck]
    && (forall c: Core :: s'.net[Reset(c)] == s.net[Reset(c)])
    && (forall c :: 0 <= c < Cores(s) ==> s'.locals[c].(cv := [], waking := []) == s.locals[c].(cv := [], waking := []))
    && (forall t :: InEnroll(s'.blocked, t) || InEnroll(s.blocked, t) ==>
          t in s.blocked && t in s'.blocked && s'.blocked[t] == s.blocked[t])
  }

  lemma SameCounting(s: Sys, s': Sys)
    requires Inv(s) && SameForEnroll(s, s')
    ensures Counting(s')
  {
  }

  lemma SameCausality(s: Sys, s': Sys)
    requires Inv(s) && SameForEnroll(s, s')
    ensures Causality(s')
  {
    forall t, c | IsCancelling(s'.blocked, t, c) || IsCancelling(s.blocked, t, c)
      ensures IsCancelling(s.blocked, t, c) && IsCancelling(s'.blocked, t, c)
    {
      assert InEnroll(s'.blocked, t) || InEnroll(s.blocked, t);
    }
    forall t, c | IsCancelling(s'.blocked, t, c) ensures CancelOk(s', t, c) {
      assert CancelOk(s, t, c);
    }
    forall c | 0 <= c < Cores(s') && s'.locals[c].count > 0 ensures Accounted(s', c) {
      KeepAccounted(s, s', c);
    }
    forall t | t in s'.blocked && (s'.blocked[t].Cancelled? || s'.blocked[t].Broadcasting?)
      ensures t in s.blocked && s.blocked[t] == s'.blocked[t]
    {
      assert InEnroll(s'.blocked, t);
    }
    if s.opener.Some? {
      assert InEnroll(s.blocked, s.opener.value);
    }
  }

  lemma SameStages(s: Sys, s': Sys)
    requires Inv(s) && SameForEnroll(s, s')
    ensures Stages(s')
  {
    assert ToReset(s') == ToReset(s);
  }

  lemma SameInv(s: Sys, s': Sys)
    requires Inv(s) && SameForEnroll(s, s')
    ensures Inv(s')
  {
    SameCounting(s, s');
    SameCausality(s, s');
    SameStages(s, s');
  }

  lemma SuspendInv(s: Sys, t: Task, c: Core)
    requires Inv(s) && c < Cores(s)
    requires t in s.blocked ==> s.blocked[t].Probed?
    ensures Inv(SuspendOn(s, t, c))
  {
    SameInv(s, SuspendOn(s, t, c));
  }

  lemma WaitInv(s: Sys, t: Task, c: Core)
    requires Inv(s) && Enabled(s, WaitStep(t, c))
    ensures Inv(DoWait(s, t, c))
  {
    if s.locals[c].inProgress || c == MASTER {
      SuspendInv(s, t, c);
    } else {
      SameInv(s, DoWait(s, t, c));
    }
  }

  lemma ProbeInv(s: Sys, t: Task)
    requires Inv(s) && t in s.blocked && s.blocked[t].Probing?
    ensures Inv(DoDeliverProbe(s, t))
  {
    SameInv(s, DoDeliverProbe(s, t));
  }

  lemma ProbedInv(s: Sys, t: Task)
    requires Inv(s) && Enabled(s, DeliverProbed(t))
    ensures Inv(DoDeliverProbed(s, t))
  {
    if s.blocked[t].co > 0 {
      SuspendInv(s, t, s.blocked[t].at);
    } else {
      SameInv(s, Unblock(s, t));
    }
  }

  lemma WakeInv(s: Sys, c: Core)
    requires Inv(s) && Enabled(s, DeliverWake(c))
    requires forall t :: t in s.locals[c].waking ==> t in s.blocked && s.blocked[t] == OnCv(c)
    ensures Inv(DoDeliverWake(s, c))
  {
    hide Inv;
    SameInv(s, DoDeliverWake(s, c));
  }

  // -- enrolling on a core that already has work

  /** An enroll opens a phase or finds one running; whether it respects the rule is another matter. */
  predicate Admits(s: Sys, t: Task, c: Core, inc: nat) {
    Shape(s) && c < Cores(s) && t !in s.blocked && inc >= 1 && (s.stage == Idle || Running(s))
  }

  /** The rule admits no other enroll. */
  lemma RuleAdmits(s: Sys, t: Task, c: Core, inc: nat, via: Core)
    requires Inv(s) && Enabled(s, EnrollStep(t, c, inc, via)) && inc >= 1
    ensures Admits(s, t, c, inc)
  {
    if s.stage != Idle && via < Cores(s) && t in s.held[via] {
      HolderIsRunning(s, t, via);
    }
    OutIsRunning(s);
  }

  /** The state once the count is up, before the barrier is cancelled. */
  function MoreWork(s: Sys, t: Task, c: Core, inc: nat): Sys
    requires Shape(s) && c < Cores(s)
  {
    s.(locals := s.locals[c := Enrolled(s.locals[c], inc)],
       held := s.held[c := s.held[c][t := s.held[c][t] + inc]])
  }

  lemma EnrollMoreInv(s: Sys, t: Task, c: Core, inc: nat)
    requires Inv(s) && Admits(s, t, c, inc) && s.locals[c].count != 0
    ensures Inv(MoreWork(s, t, c, inc))
  {
    EnrollMoreCounting(s, t, c, inc);
    EnrollMoreCausality(s, t, c, inc);
    EnrollMoreStages(s, t, c, inc);
    hide Counting, Causality, Stages;
  }

  lemma EnrollMoreCounting(s: Sys, t: Task, c: Core, inc: nat)
    requires Counting(s) && Admits(s, t, c, inc) && s.locals[c].count != 0
    ensures Counting(MoreWork(s, t, c, inc))
  {
  }

  lemma EnrollMoreCausality(s: Sys, t: Task, c: Core, inc: nat)
    requires Inv(s) && Admits(s, t, c, inc) && s.locals[c].count != 0
    ensures Shape(MoreWork(s, t, c, inc)) && Causality(MoreWork(s, t, c, inc))
  {
    EnrollMoreCounting(s, t, c, inc);
    OutIsRunning(s);
    assert s.stage == Active && s.locals[c].count > 0;
    hide Stages, Cancels, AllAccounted, Replies;
    SameEnrollsCausality(s, MoreWork(s, t, c, inc));
  }

  lemma EnrollMoreStages(s: Sys, t: Task, c: Core, inc: nat)
    requires Inv(s) && Admits(s, t, c, inc) && s.locals[c].count != 0
    ensures Stages(MoreWork(s, t, c, inc))
  {
    assert s.stage == Active;
    hide Causality;
    assert ToReset(MoreWork(s, t, c, inc)) == ToReset(s);
  }

  // -- enrolling on a core without work

  /** The first work on core c: the state before the cancel request is dealt with. */
  function FirstWork(s: Sys, t: Task, c: Core, inc: nat, via: Core): Sys
    requires Shape(s) && c < Cores(s)
  {
    MoreWork(s, t, c, inc).(
      rank := s.rank[c := s.clock], clock := s.clock + 1, via := s.via[t := via],
      rogue := if MayEnroll(s, t, c, via) then s.rogue else s.rogue + {c},
      opener := if s.stage == Idle then Some(t) else s.opener,
      stage := if s.stage == Idle then Active else s.stage)
  }

  lemma FirstWorkCounting(s: Sys, t: Task, c: Core, inc: nat, via: Core)
    requires Counting(s) && c < Cores(s) && inc >= 1 && s.locals[c].count == 0
    ensures Counting(FirstWork(s, t, c, inc, via))
  {
  }

  /** On any core but the master the task blocks with its cancel request in flight. */
  function Requested(s: Sys, t: Task, c: Core, inc: nat, via: Core): Sys
    requires Shape(s) && c < Cores(s)
  {
    FirstWork(s, t, c, inc, via).(blocked := s.blocked[t := Cancelling(c)])
  }

  lemma RequestedCancels(s: Sys, t: Task, c: Core, inc: nat, via: Core)
    requires Inv(s) && Admits(s, t, c, inc) && s.locals[c].count == 0 && c != MASTER
    ensures Cancels(Requested(s, t, c, inc, via))
  {
    var s' := Requested(s, t, c, inc, via);
    OutIsRunning(s);
    assert c !in s.counted && s.held[c] == multiset{};
    forall w, d | IsCancelling(s'.blocked, w, d)
      ensures CancelOk(s', w, d) && (w == t <==> d == c)
    {
      if w != t {
        assert IsCancelling(s.blocked, w, d) && CancelOk(s, w, d);
      }
    }
    forall w, u, d | IsCancelling(s'.blocked, w, d) && IsCancelling(s'.blocked, u, d) ensures w == u {
      if w != t {
        assert IsCancelling(s.blocked, w, d) && IsCancelling(s.blocked, u, d);
      }
    }
  }

  lemma RequestedAccounted(s: Sys, t: Task, c: Core, inc: nat, via: Core)
    requires Inv(s) && Admits(s, t, c, inc) && s.locals[c].count == 0 && c != MASTER
    ensures AllAccounted(Requested(s, t, c, inc, via))
  {
    var s' := Requested(s, t, c, inc, via);
    forall d | 0 <= d < Cores(s') && s'.locals[d].count > 0 ensures Accounted(s', d) {
      if d == c {
        assert IsCancelling(s'.blocked, t, c);
      } else {
        assert Accounted(s, d);
        KeepAccounted(s, s', d);
      }
    }
  }

  lemma RequestedReplies(s: Sys, t: Task, c: Core, inc: nat, via: Core)
    requires Inv(s) && Admits(s, t, c, inc) && s.locals[c].count == 0 && c != MASTER
    ensures Replies(Requested(s, t, c, inc, via)) && Opening(Requested(s, t, c, inc, via))
  {
    OutIsRunning(s);
    assert s.held[c] == multiset{};
  }

  lemma RequestedStages(s: Sys, t: Task, c: Core, inc: nat, via: Core)
    requires Inv(s) && Admits(s, t, c, inc) && s.locals[c].count == 0 && c != MASTER
    ensures Shape(Requested(s, t, c, inc, via)) && Stages(Requested(s, t, c, inc, via))
  {
    OutIsRunning(s);
    assert ToReset(Requested(s, t, c, inc, via)) == ToReset(s);
  }

  lemma RequestedCounting(s: Sys, t: Task, c: Core, inc: nat, via: Core)
    requires Inv(s) && Admits(s, t, c, inc) && s.locals[c].count == 0 && c != MASTER
    ensures Counting(Requested(s, t, c, inc, via))
  {
    FirstWorkCounting(s, t, c, inc, via);
    hide Causality, Stages;
  }

  lemma EnrollRemoteInv(s: Sys, t: Task, c: Core, inc: nat, via: Core)
    requires Inv(s) && Admits(s, t, c, inc) && s.locals[c].count == 0 && c != MASTER
    ensures Inv(Requested(s, t, c, inc, via))
  {
    RequestedCounting(s, t, c, inc, via);
    RequestedStages(s, t, c, inc, via);
    RequestedCancels(s, t, c, inc, via);
    RequestedAccounted(s, t, c, inc, via);
    RequestedReplies(s, t, c, inc, via);
    hide Counting, Stages, Cancels, AllAccounted, Replies, Opening, Requested;
  }

  // -- the cancel request on the master, and back in enroll

  lemma DeliverCancelCounting(s: Sys, t: Task)
    requires Inv(s) && Enabled(s, DeliverCancel(t))
    ensures Counting(DoDeliverCancel(s, t))
  {
    var c := s.blocked[t].at;
    assert IsCancelling(s.blocked, t, c) && CancelOk(s, t, c);
    assert |s.held[c]| > 0;
  }

  /** The reply is 1 exactly for the task that opens the phase. */
  lemma CancelReply(s: Sys, t: Task)
    requires Inv(s) && Enabled(s, DeliverCancel(t))
    ensures s.stage == Active && s.locals[MASTER].coresOut + 1 >= 1
    ensures s.locals[MASTER].coresOut + 1 == 1 <==> s.opener == Some(t)
  {
    var c := s.blocked[t].at;
    assert IsCancelling(s.blocked, t, c) && CancelOk(s, t, c);
    OutIsRunning(s);
  }

  lemma DeliverCancelCancels(s: Sys, t: Task)
    requires Shape(s) && Cancels(s) && AllAccounted(s) && Enabled(s, DeliverCancel(t))
    ensures Shape(DoDeliverCancel(s, t)) && Cancels(DoDeliverCancel(s, t)) && AllAccounted(DoDeliverCancel(s, t))
  {
    var s' := DoDeliverCancel(s, t);
    var c := s.blocked[t].at;
    assert IsCancelling(s.blocked, t, c) && CancelOk(s, t, c);
    forall w, d | IsCancelling(s'.blocked, w, d) ensures CancelOk(s', w, d) && IsCancelling(s.blocked, w, d) {
      assert IsCancelling(s.blocked, w, d) && CancelOk(s, w, d);
    }
    forall d | 0 <= d < Cores(s') && s'.locals[d].count > 0 ensures Accounted(s', d) {
      assert Accounted(s, d);
      if d != c {
        KeepAccounted(s, s', d);
      }
    }
  }

  /** What the cancelled task and the counted core look like after the request. */
  lemma DeliverCancelEffect(s: Sys, t: Task)
    requires Shape(s) && t in s.blocked && s.blocked[t].Cancelling? && s.blocked[t].at < Cores(s)
    ensures var s', c := DoDeliverCancel(s, t), s.blocked[t].at;
      && Shape(s') && s'.blocked == s.blocked[t := Cancelled(c, s.locals[MASTER].coresOut + 1)]
      && s'.counted == s.counted + {c} && s'.held == s.held && s'.opener == s.opener && Cores(s') == Cores(s)
      && (forall d :: 0 <= d < Cores(s) ==> s'.locals[d].inProgress == s.locals[d].inProgress)
  {
  }

  lemma CancellerHolds(s: Sys, t: Task)
    requires Shape(s) && Cancels(s) && t in s.blocked && s.blocked[t].Cancelling?
    ensures s.blocked[t].at < Cores(s) && t in s.held[s.blocked[t].at]
  {
    assert IsCancelling(s.blocked, t, s.blocked[t].at) && CancelOk(s, t, s.blocked[t].at);
  }

  lemma DeliverCancelReplies(s: Sys, t: Task)
    requires Shape(s) && Cancels(s) && Replies(s) && Enabled(s, DeliverCancel(t))
    requires s.locals[MASTER].coresOut + 1 >= 1 && (s.locals[MASTER].coresOut + 1 == 1 <==> s.opener == Some(t))
    ensures Shape(DoDeliverCancel(s, t)) && Replies(DoDeliverCancel(s, t))
  {
    DeliverCancelEffect(s, t);
    CancellerHolds(s, t);
    hide Cancels, DoDeliverCancel, CoreSet;
  }

  lemma DeliverCancelOpener(s: Sys, t: Task)
    requires Inv(s) && Enabled(s, DeliverCancel(t))
    ensures Shape(DoDeliverCancel(s, t)) && Opening(DoDeliverCancel(s, t))
  {
    CancelReply(s, t);
    hide Stages, AllAccounted, Cancels, Replies, Counting;
  }

  lemma DeliverCancelCausality(s: Sys, t: Task)
    requires Inv(s) && Enabled(s, DeliverCancel(t))
    ensures Shape(DoDeliverCancel(s, t)) && Causality(DoDeliverCancel(s, t))
  {
    CancelReply(s, t);
    DeliverCancelCancels(s, t);
    DeliverCancelReplies(s, t);
    DeliverCancelOpener(s, t);
    hide Inv, Cancels, AllAccounted, Replies, Opening;
  }

  lemma DeliverCancelInv(s: Sys, t: Task)
    requires Inv(s) && Enabled(s, DeliverCancel(t))
    ensures Inv(DoDeliverCancel(s, t))
  {
    CancelReply(s, t);
    DeliverCancelCounting(s, t);
    DeliverCancelCausality(s, t);
    assert ToReset(DoDeliverCancel(s, t)) == ToReset(s);
  }

  // -- back in enroll

  /** s' is s with task t's part of enroll moved on; t holds work on a counted core. */
  ghost predicate MovesOn(s: Sys, s': Sys, t: Task) {
    && Inv(s) && s.stage == Active && Shape(s') && Cores(s') == Cores(s)
    && s' == s.(locals := s'.locals, blocked := s'.blocked, opener := s'.opener)
    && (forall d :: 0 <= d < Cores(s) ==> s'.locals[d] == s.locals[d].(inProgress := s'.locals[d].inProgress))
    && (forall d :: 0 <= d < Cores(s) && s.locals[d].inProgress ==> s'.locals[d].inProgress)
    && t in s.blocked && (s.blocked[t].Cancelled? || s.blocked[t].Broadcasting?)
    && (t in s'.blocked ==> s'.blocked[t].Broadcasting?)
    && (forall w :: w != t ==> (w in s'.blocked <==> w in s.blocked) && (w in s.blocked ==> s'.blocked[w] == s.blocked[w]))
    && (s'.opener == s.opener || (s.opener == Some(t) && s'.opener == None))
  }

  lemma MovesOnCounting(s: Sys, s': Sys, t: Task)
    requires MovesOn(s, s', t)
    ensures Counting(s')
  {
    hide Causality, Stages;
  }

  lemma MovesOnCancels(s: Sys, s': Sys, t: Task)
    requires MovesOn(s, s', t)
    ensures Cancels(s') && AllAccounted(s')
  {
    forall w, d | IsCancelling(s'.blocked, w, d) || IsCancelling(s.blocked, w, d)
      ensures IsCancelling(s.blocked, w, d) && IsCancelling(s'.blocked, w, d) && CancelOk(s', w, d)
    {
      assert IsCancelling(s.blocked, w, d) && w != t && CancelOk(s, w, d);
    }
    forall d | 0 <= d < Cores(s') && s'.locals[d].count > 0 ensures Accounted(s', d) {
      assert Accounted(s, d);
      KeepAccounted(s, s', d);
    }
  }

  lemma MovesOnStages(s: Sys, s': Sys, t: Task)
    requires MovesOn(s, s', t)
    requires s'.opener != s.opener ==> forall d :: 0 <= d < Cores(s) ==> s'.locals[d].inProgress
    ensures Stages(s')
  {
    OutIsRunning(s);
    assert ToReset(s') == ToReset(s);
    assert s.opener == Some(t) ==> !s.blocked[t].Cancelling?;
    hide Causality;
  }

  lemma MovesOnInv(s: Sys, s': Sys, t: Task)
    requires MovesOn(s, s', t) && (t in s'.blocked ==> BroadcastOk(s', t)) && (t !in s'.blocked ==> s'.opener != Some(t))
    requires s'.opener != s.opener ==> forall d :: 0 <= d < Cores(s) ==> s'.locals[d].inProgress
    ensures Inv(s')
  {
    MovesOnCounting(s, s', t);
    MovesOnCancels(s, s', t);
    MovesOnStages(s, s', t);
    MovesOnReplies(s, s', t);
    MovesOnOpening(s, s', t);
    hide MovesOn, Counting, Cancels, AllAccounted, Replies, Opening, Stages;
  }

  lemma MovesOnReplies(s: Sys, s': Sys, t: Task)
    requires MovesOn(s, s', t) && (t in s'.blocked ==> BroadcastOk(s', t)) && (t !in s'.blocked ==> s'.opener != Some(t))
    ensures Replies(s')
  {
    hide Stages, Cancels, AllAccounted, Counting, Opening, CoreSet;
    forall w | w in s'.blocked && s'.blocked[w].Broadcasting? ensures BroadcastOk(s', w) {
      assert w != t ==> BroadcastOk(s, w);
    }
    hide BroadcastOk;
  }

  lemma MovesOnOpening(s: Sys, s': Sys, t: Task)
    requires MovesOn(s, s', t) && (t in s'.blocked ==> BroadcastOk(s', t)) && (t !in s'.blocked ==> s'.opener != Some(t))
    ensures Opening(s')
  {
    hide Stages, Cancels, AllAccounted, Counting, CoreSet, Replies;
  }

  /** A reply is 1 for the opener only, who holds work on a counted core. */
  lemma RepliedHolds(s: Sys, t: Task)
    requires Inv(s) && t in s.blocked && (s.blocked[t].Cancelled? || s.blocked[t].Broadcasting?)
    ensures s.stage == Active && s.blocked[t].at < Cores(s) && s.locals[s.blocked[t].at].count > 0
    ensures s.opener == Some(t) <==> (s.blocked[t].Cancelled? ==> s.blocked[t].co == 1)
  {
    assert |s.held[s.blocked[t].at]| > 0;
  }

  /** A task whose enroll returns without a broadcast. */
  lemma ReturnInv(s: Sys, t: Task)
    requires Inv(s) && t in s.blocked && s.blocked[t].Cancelled? && s.blocked[t].co != 1
    ensures s.blocked[t].at < Cores(s) && Inv(Return(s, t, s.blocked[t].at))
  {
    assert Shape(s) && !s.failed;
    hide Inv;
    RepliedHolds(s, t);
    assert Return(s, t, s.blocked[t].at) == Unblock(s, t);
    MovesOnInv(s, Unblock(s, t), t);
  }

  lemma OpenBroadcastInv(s: Sys, t: Task)
    requires Inv(s) && t in s.blocked && s.blocked[t].Cancelled? && s.blocked[t].co == 1 && Cores(s) > 1
    ensures s.blocked[t].at < Cores(s) && Inv(FinishEnroll(s, t, s.blocked[t].at, 1))
  {
    RepliedHolds(s, t);
    OpenBroadcastMoves(s, t);
    OpenBroadcastOk(s, t);
    hide Inv, MovesOn, BroadcastOk;
    MovesOnInv(s, FinishEnroll(s, t, s.blocked[t].at, 1), t);
  }

  lemma OpenBroadcastMoves(s: Sys, t: Task)
    requires Inv(s) && t in s.blocked && s.blocked[t].Cancelled? && s.blocked[t].co == 1 && Cores(s) > 1
    ensures s.blocked[t].at < Cores(s) && MovesOn(s, FinishEnroll(s, t, s.blocked[t].at, 1), t)
    ensures FinishEnroll(s, t, s.blocked[t].at, 1).opener == s.opener
  {
    assert Shape(s);
    hide Inv, CoreSet;
    RepliedHolds(s, t);
  }

  lemma OpenBroadcastOk(s: Sys, t: Task)
    requires Inv(s) && t in s.blocked && s.blocked[t].Cancelled? && s.blocked[t].co == 1 && Cores(s) > 1
    ensures s.blocked[t].at < Cores(s)
    ensures var s' := FinishEnroll(s, t, s.blocked[t].at, 1);
      Shape(s') && t in s'.blocked && s'.blocked[t].Broadcasting? && BroadcastOk(s', t)
  {
    RepliedHolds(s, t);
    hide Stages, Cancels, AllAccounted, Counting, Opening;
    assert |CoreSet(Cores(s)) - {s.blocked[t].at}| == Cores(s) - 1;
  }

  lemma OpenAloneInv(s: Sys, t: Task)
    requires Inv(s) && t in s.blocked && s.blocked[t].Cancelled? && s.blocked[t].co == 1 && Cores(s) == 1
    ensures s.blocked[t].at < Cores(s) && Inv(FinishEnroll(s, t, s.blocked[t].at, 1))
  {
    assert Shape(s) && !s.failed;
    hide Inv;
    RepliedHolds(s, t);
    MovesOnInv(s, FinishEnroll(s, t, s.blocked[t].at, 1), t);
  }

  lemma FinishInv(s: Sys, t: Task)
    requires Inv(s) && t in s.blocked && s.blocked[t].Cancelled?
    ensures s.blocked[t].at < Cores(s) && Inv(FinishEnroll(s, t, s.blocked[t].at, s.blocked[t].co))
  {
    if s.blocked[t].co != 1 {
      ReturnInv(s, t);
    } else if Cores(s) > 1 {
      OpenBroadcastInv(s, t);
    } else {
      OpenAloneInv(s, t);
    }
  }

  lemma DeliverCancelledInv(s: Sys, t: Task)
    requires Inv(s) && Enabled(s, DeliverCancelled(t))
    ensures Inv(DoDeliverCancelled(s, t))
  {
    FinishInv(s, t);
  }

  // -- enrolling on the master: the cancel is a local call

  /** The same point of enroll as when a cancel reply arrives, reached on the master without messages. */
  function AtMaster(s: Sys, t: Task, inc: nat, via: Core): Sys
    requires Shape(s)
  {
    CancelAtMaster(FirstWork(s, t, MASTER, inc, via), MASTER).(
      blocked := s.blocked[t := Cancelled(MASTER, s.locals[MASTER].coresOut + 1)])
  }

  lemma AtMasterCounting(s: Sys, t: Task, inc: nat, via: Core)
    requires Inv(s) && Admits(s, t, MASTER, inc) && s.locals[MASTER].count == 0
    ensures Counting(AtMaster(s, t, inc, via))
  {
    FirstWorkCounting(s, t, MASTER, inc, via);
    assert MASTER !in s.counted;
  }

  lemma AtMasterCancels(s: Sys, t: Task, inc: nat, via: Core)
    requires Inv(s) && Admits(s, t, MASTER, inc) && s.locals[MASTER].count == 0
    ensures Cancels(AtMaster(s, t, inc, via)) && AllAccounted(AtMaster(s, t, inc, via))
  {
    var s' := AtMaster(s, t, inc, via);
    OutIsRunning(s);
    assert s.held[MASTER] == multiset{};
    forall w, d | IsCancelling(s'.blocked, w, d) ensures CancelOk(s', w, d) && IsCancelling(s.blocked, w, d) {
      assert IsCancelling(s.blocked, w, d) && CancelOk(s, w, d);
    }
    forall d | 0 <= d < Cores(s') && s'.locals[d].count > 0 ensures Accounted(s', d) {
      if d != MASTER {
        assert Accounted(s, d);
        KeepAccounted(s, s', d);
      }
    }
  }

  lemma AtMasterReplies(s: Sys, t: Task, inc: nat, via: Core)
    requires Inv(s) && Admits(s, t, MASTER, inc) && s.locals[MASTER].count == 0
    ensures Replies(AtMaster(s, t, inc, via)) && Opening(AtMaster(s, t, inc, via))
  {
    OutIsRunning(s);
    var s' := AtMaster(s, t, inc, via);
    assert s.locals[MASTER].coresOut + 1 >= 1 && (s.locals[MASTER].coresOut + 1 == 1 <==> s'.opener == Some(t));
    hide Counting, Stages, Cancels, AllAccounted, CoreSet, MayEnroll;
    AtMasterBroadcasts(s, t, inc, via);
    hide BroadcastOk;
  }

  lemma AtMasterBroadcasts(s: Sys, t: Task, inc: nat, via: Core)
    requires Shape(s) && Replies(s) && (forall w :: w in s.blocked && s.blocked[w].Broadcasting? ==> s.stage == Active)
    ensures var s' := AtMaster(s, t, inc, via);
      forall w :: w in s'.blocked && s'.blocked[w].Broadcasting? ==> BroadcastOk(s', w)
  {
    var s' := AtMaster(s, t, inc, via);
    forall w | w in s'.blocked && s'.blocked[w].Broadcasting? ensures BroadcastOk(s', w) {
      assert BroadcastOk(s, w);
    }
  }

  lemma AtMasterStages(s: Sys, t: Task, inc: nat, via: Core)
    requires Inv(s) && Admits(s, t, MASTER, inc) && s.locals[MASTER].count == 0
    ensures Stages(AtMaster(s, t, inc, via))
  {
    OutIsRunning(s);
    assert ToReset(AtMaster(s, t, inc, via)) == ToReset(s);
  }

  lemma AtMasterInv(s: Sys, t: Task, inc: nat, via: Core)
    requires Inv(s) && Admits(s, t, MASTER, inc) && s.locals[MASTER].count == 0
    ensures Inv(AtMaster(s, t, inc, via))
  {
    AtMasterCounting(s, t, inc, via);
    AtMasterCancels(s, t, inc, via);
    AtMasterReplies(s, t, inc, via);
    AtMasterStages(s, t, inc, via);
  }

  /** How the task was blocked does not matter once its enroll goes on. */
  lemma FinishAgain(s: Sys, t: Task, b: Block, c: Core, co: int)
    requires c < Cores(s) && t !in s.blocked
    ensures FinishEnroll(s.(blocked := s.blocked[t := b]), t, c, co) == FinishEnroll(s, t, c, co)
  {
    BlockedAgain(s.blocked, t, b, Broadcasting(c, CoreSet(Cores(s)) - {c}, Cores(s) - 1));
    hide CoreSet;
  }

  /** Enrolling on the master is the two halves run in one segment. */
  lemma EnrollMasterSplits(s: Sys, t: Task, inc: nat, via: Core)
    requires Shape(s) && t !in s.blocked && inc >= 1 && s.locals[MASTER].count == 0
    ensures DoEnroll(s, t, MASTER, inc, via)
         == FinishEnroll(AtMaster(s, t, inc, via), t, MASTER, s.locals[MASTER].coresOut + 1)
  {
    var co := s.locals[MASTER].coresOut + 1;
    BlockedAgain(s.blocked, t, Cancelled(MASTER, co), Broadcasting(MASTER, CoreSet(Cores(s)) - {MASTER}, Cores(s) - 1));
    FinishAgain(CancelAtMaster(FirstWork(s, t, MASTER, inc, via), MASTER), t, Cancelled(MASTER, co), MASTER, co);
    hide CoreSet, FinishEnroll, MayEnroll;
  }

  lemma BlockedAgain(blocked: map<Task, Block>, t: Task, b: Block, b': Block)
    ensures blocked[t := b] - {t} == blocked - {t} && blocked[t := b][t := b'] == blocked[t := b']
  {
  }

  lemma EnrollMasterInv(s: Sys, t: Task, inc: nat, via: Core)
    requires Inv(s) && Admits(s, t, MASTER, inc) && s.locals[MASTER].count == 0
    ensures Inv(DoEnroll(s, t, MASTER, inc, via))
  {
    AtMasterInv(s, t, inc, via);
    FinishInv(AtMaster(s, t, inc, via), t);
    EnrollMasterSplits(s, t, inc, via);
  }

  lemma EnrollInv(s: Sys, t: Task, c: Core, inc: nat, via: Core)
    requires Inv(s) && Admits(s, t, c, inc)
    ensures Inv(DoEnroll(s, t, c, inc, via))
  {
    if s.locals[c].count != 0 {
      EnrollMoreInv(s, t, c, inc);
    } else if c != MASTER {
      EnrollRemoteInv(s, t, c, inc, via);
    } else {
      EnrollMasterInv(s, t, inc, via);
    }
  }

  // -- the broadcast that an event is in progress

  lemma DeliverProgressInv(s: Sys, t: Task, d: Core)
    requires Inv(s) && Enabled(s, DeliverProgress(t, d))
    ensures Inv(DoDeliverProgress(s, t, d))
  {
    assert BroadcastOk(s, t);
    hide Inv;
    RepliedHolds(s, t);
    ProgressMoves(s, t, d);
    hide MovesOn, BroadcastOk;
    MovesOnInv(s, DoDeliverProgress(s, t, d), t);
  }

  lemma ProgressMoves(s: Sys, t: Task, d: Core)
    requires Inv(s) && s.stage == Active && Enabled(s, DeliverProgress(t, d)) && BroadcastOk(s, t)
    ensures var s' := DoDeliverProgress(s, t, d);
      MovesOn(s, s', t) && t in s'.blocked && s'.opener == s.opener && BroadcastOk(s', t)
  {
    hide Inv, CoreSet;
  }

  /** When the opener's enroll returns, every core knows that an event is in progress. */
  lemma DeliverProgressAckInv(s: Sys, t: Task)
    requires Inv(s) && Enabled(s, DeliverProgressAck(t))
    ensures Inv(DoDeliverProgressAck(s, t))
  {
    assert BroadcastOk(s, t) && !s.failed;
    hide Inv;
    RepliedHolds(s, t);
    if s.blocked[t].missing == 1 {
      LastAckMoves(s, t);
    } else {
      EarlierAckMoves(s, t);
    }
    hide MovesOn, BroadcastOk;
    MovesOnInv(s, DoDeliverProgressAck(s, t), t);
  }

  lemma LastAckMoves(s: Sys, t: Task)
    requires Inv(s) && s.stage == Active && !s.failed && Enabled(s, DeliverProgressAck(t)) && BroadcastOk(s, t)
    requires s.blocked[t].missing == 1 && s.locals[s.blocked[t].at].count > 0
    ensures var s' := DoDeliverProgressAck(s, t);
      && MovesOn(s, s', t) && t !in s'.blocked && s'.opener == None
      && forall d :: 0 <= d < Cores(s) ==> s'.locals[d].inProgress
  {
    hide Inv, CoreSet;
    assert s.blocked[t].todo == {};
  }

  lemma EarlierAckMoves(s: Sys, t: Task)
    requires Inv(s) && s.stage == Active && Enabled(s, DeliverProgressAck(t)) && BroadcastOk(s, t) && s.blocked[t].missing != 1
    ensures var s' := DoDeliverProgressAck(s, t);
      MovesOn(s, s', t) && t in s'.blocked && s'.opener == s.opener && BroadcastOk(s', t)
  {
    hide Inv, CoreSet;
  }

  // -- detection, resets and their acknowledgements

  /** Nobody is in the middle of an enroll when nothing is held. */
  lemma NoOneEnrolling(s: Sys)
    requires Inv(s) && NothingHeld(s)
    ensures forall w :: !InEnroll(s.blocked, w)
  {
    forall w ensures !InEnroll(s.blocked, w) {
      if w in s.blocked && s.blocked[w].Cancelling? {
        assert IsCancelling(s.blocked, w, s.blocked[w].at);
      }
    }
  }

  lemma QuietCausality(s: Sys)
    requires Shape(s) && Units(s) && NothingHeld(s) && s.opener == None
    requires forall w :: !InEnroll(s.blocked, w)
    ensures Causality(s)
  {
    forall w, d ensures !IsCancelling(s.blocked, w, d) {
      assert !InEnroll(s.blocked, w);
    }
    forall w | w in s.blocked ensures !s.blocked[w].Cancelled? && !s.blocked[w].Broadcasting? {
      assert !InEnroll(s.blocked, w);
    }
  }

  lemma DetectCounting(s: Sys)
    requires Inv(s) && s.rogue == {} && Enabled(s, DeliverEnter) && CompletesBarrier(s.locals[MASTER])
    ensures Counting(DoDeliverEnter(s)) && NothingHeld(DoDeliverEnter(s)) && s.counted == {} && s.opener == None
  {
    LastEntryMeansDone(s);
    hide Causality;
  }

  lemma DetectStages(s: Sys)
    requires Inv(s) && s.rogue == {} && Enabled(s, DeliverEnter) && CompletesBarrier(s.locals[MASTER])
    ensures Shape(DoDeliverEnter(s)) && Stages(DoDeliverEnter(s))
  {
    DetectCounting(s);
    hide Causality, Counting;
    assert ToReset(DoDeliverEnter(s)) == CoreSet(Cores(s));
  }

  lemma DetectInv(s: Sys)
    requires Inv(s) && s.rogue == {} && Enabled(s, DeliverEnter) && CompletesBarrier(s.locals[MASTER])
    ensures Inv(DoDeliverEnter(s))
  {
    LastEntryMeansDone(s);
    NoOneEnrolling(s);
    DetectCounting(s);
    DetectStages(s);
    QuietCausality(DoDeliverEnter(s));
    hide Counting, Causality, Stages;
  }

  lemma EarlierEntryInv(s: Sys)
    requires Inv(s) && Enabled(s, DeliverEnter) && !CompletesBarrier(s.locals[MASTER])
    ensures Inv(DoDeliverEnter(s))
  {
    EarlierEntryCounting(s);
    EarlierEntryCausality(s);
    EarlierEntryStages(s);
    hide Counting, Causality, Stages;
  }

  lemma EarlierEntryCounting(s: Sys)
    requires Counting(s) && Enabled(s, DeliverEnter) && !CompletesBarrier(s.locals[MASTER])
    ensures Counting(DoDeliverEnter(s))
  {
  }

  lemma EarlierEntryCausality(s: Sys)
    requires Inv(s) && Enabled(s, DeliverEnter) && !CompletesBarrier(s.locals[MASTER])
    ensures Shape(DoDeliverEnter(s)) && Causality(DoDeliverEnter(s))
  {
    EarlierEntryCounting(s);
    hide Stages, Cancels, AllAccounted, Replies;
    SameEnrollsCausality(s, DoDeliverEnter(s));
  }

  lemma EarlierEntryStages(s: Sys)
    requires Inv(s) && Enabled(s, DeliverEnter) && !CompletesBarrier(s.locals[MASTER])
    ensures Shape(DoDeliverEnter(s)) && Stages(DoDeliverEnter(s))
  {
    hide ToReset;
    OutIsRunning(s);
    assert s.stage == Active && s.locals[MASTER].coresOut >= 2;
    hide Causality, Counting;
  }

  lemma DeliverResetInv(s: Sys, c: Core)
    requires Inv(s) && Enabled(s, DeliverReset(c))
    ensures s.locals[c].count == 0
    ensures Inv(DoDeliverReset(s, c))
  {
    var s' := DoDeliverReset(s, c);
    assert s.stage == Resetting;
    NoOneEnrolling(s);
    QuietCausality(s');
    ResetStages(s, c);
  }

  lemma ResetStages(s: Sys, c: Core)
    requires Shape(s) && Stages(s) && s.stage == Resetting && Enabled(s, DeliverReset(c))
    ensures Stages(DoDeliverReset(s, c))
  {
    var s' := DoDeliverReset(s, c);
    assert s'.net[Reset(c)] == 0 && s'.net[ResetAck] == s.net[ResetAck] + 1;
    assert ToReset(s') == ToReset(s) - {c};
    assert c in ToReset(s) && |ToReset(s')| == |ToReset(s)| - 1;
  }

  lemma DeliverResetAckInv(s: Sys)
    requires Inv(s) && Enabled(s, DeliverResetAck)
    ensures Inv(DoDeliverResetAck(s))
  {
    var s' := DoDeliverResetAck(s);
    assert s.stage == Resetting;
    NoOneEnrolling(s);
    QuietCausality(s');
    AckStages(s);
  }

  lemma AckStages(s: Sys)
    requires Inv(s) && Enabled(s, DeliverResetAck)
    ensures Stages(DoDeliverResetAck(s))
  {
    var s' := DoDeliverResetAck(s);
    assert ToReset(s') == ToReset(s);
    if s'.locals[MASTER].wakingOut == 0 {
      assert ToReset(s) == {};
      forall c: Core ensures Reset(c) !in s'.net {
        assert Reset(c) in s.net ==> c in ToReset(s);
      }
    }
  }
}
