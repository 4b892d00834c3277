/**
 FetchAddCombiner looks like atomic fetch-and-add: in every interleaving the shares of
 a round are the successive prefix sums from the value fetched, rounds do not mix, the
 whole history is a sequence of atomic adds, and nobody is left waiting unless a
 promised caller is still to come.
 */
module FetchAddProofs {
  import opened Basics
  import opened FetchAddCombiner
  import opened Sums

  // ---------- Sums ----------

  function SumTaken(taken: seq<Entry>): int {
    if taken == [] then 0 else SumTaken(taken[..|taken| - 1]) + taken[|taken| - 1].inc
  }

  lemma SumTakenSnoc(taken: seq<Entry>, e: Entry)
    ensures SumTaken(taken + [e]) == SumTaken(taken) + e.inc
  {
    assert (taken + [e])[..|taken|] == taken;
  }

  // ---------- Who is where ----------

  /** t is in at most one place, in one exactly when it is inside the call; `loose` are the tasks being moved. */
  predicate PlaceOk(s: Sys, loose: set<Task>, t: Task) {
    && AsNumber(t in s.cvReady) + AsNumber(t in s.wokenReady) + AsNumber(t in s.cvReceived) + AsNumber(t in s.woken) + AsNumber(t in s.calls)
         + AsNumber(t in loose) == AsNumber(t in s.inc)
    && AsNumber(t in s.promised) + AsNumber(t in s.inc) + AsNumber(t in s.done) <= 1
  }

  ghost predicate Places(s: Sys, loose: set<Task>) {
    forall t :: PlaceOk(s, loose, t)
  }

  /** The unit's counters; `joining` and `leaving` count the tasks being moved. */
  predicate Counts(s: Sys, joining: nat, leaving: nat) {
    && s.unit.committed == |s.promised| + |Waiters(s)| + joining
    && s.unit.readyWaiters == |Waiters(s)|
    && s.unit.participants == |Participants(s)| + leaving
  }

  /** What the unit will add, or is adding, is what its participants bring. */
  ghost predicate Adds(p: Params, s: Sys, leaving: set<Task>) {
    && Participants(s) + leaving <= s.inc.Keys
    && s.unit.increment == p.initVal + SumOver(s.inc, Participants(s) + leaving)
  }

  /** While the unit aggregates, no round is under way; participants wait only for promised callers. */
  predicate Aggregating(s: Sys) {
    && s.woken == {} && s.calls == map[] && s.cvReady == {} && s.open == None
    && (s.cvReceived != {} ==> s.unit.committed > 0)
  }

  /** A round that has been started by c and whose result has not been received. */
  predicate Flushing(p: Params, s: Sys, c: Task) {
    && s.wokenReady == {} && s.woken == {} && s.calls.Keys == {c}
    && match s.calls[c]
       case Requested(total) => total == s.unit.increment && s.open == None
       case Answered(r) =>
         && s.open.Some? && s.open.value < |s.log|
         && s.log[s.open.value] == Block(r, s.unit.increment, p.initVal, [])
  }

  /** A round whose result is being handed out. */
  predicate HandingOut(p: Params, s: Sys) {
    && s.wokenReady == {} && s.calls == map[] && s.cvReceived == {}
    && s.open.Some? && s.open.value < |s.log|
    && var b := s.log[s.open.value];
       && b.extra == p.initVal && s.unit.result == b.base + SumTaken(b.taken)
       && b.total == SumTaken(b.taken) + s.unit.increment
  }

  ghost predicate Phase(p: Params, s: Sys) {
    if s.unit.outstanding
    then (exists c :: Flushing(p, s, c)) || (HandingOut(p, s) && s.woken != {})
    else Aggregating(s)
  }

  ghost predicate TasksOk(p: Params, s: Sys) {
    Places(s, {}) && Counts(s, 0, 0) && Adds(p, s, {}) && Phase(p, s)
  }

  // ---------- The history of adds ----------

  /** Each add fetched what the one before left. */
  predicate Chain(log: seq<Block>, v0: int, target: int)
    decreases |log|
  {
    if log == [] then target == v0
    else
      var b := log[|log| - 1];
      target == b.base + b.total && Chain(log[..|log| - 1], v0, b.base)
  }

  /** The shares of an add start at its base and follow one another. */
  predicate PrefixSums(b: Block) {
    forall j :: 0 <= j < |b.taken| ==> b.taken[j].start == b.base + SumTaken(b.taken[..j])
  }

  /** All shares have been handed out. */
  predicate Closed(b: Block) {
    b.total == SumTaken(b.taken) + b.extra
  }

  predicate LogShape(p: Params, log: seq<Block>, open: Option<nat>) {
    forall i: nat :: i < |log| ==>
      PrefixSums(log[i]) && (log[i].extra == 0 || log[i].extra == p.initVal) && (open != Some(i) ==> Closed(log[i]))
  }

  function CountIn(taken: seq<Entry>, t: Task): nat {
    if taken == [] then 0
    else CountIn(taken[..|taken| - 1], t) + if taken[|taken| - 1].task == Some(t) then 1 else 0
  }

  /** How often task t was given a share. */
  function Shares(log: seq<Block>, t: Task): nat
    decreases |log|
  {
    if log == [] then 0 else Shares(log[..|log| - 1], t) + CountIn(log[|log| - 1].taken, t)
  }

  /** Shares belong to tasks that returned, and each of those got one: the start it returned. */
  ghost predicate Returned(log: seq<Block>, done: map<Task, int>) {
    && (forall t :: Shares(log, t) == if t in done then 1 else 0)
    && (forall i, j :: 0 <= i < |log| && 0 <= j < |log[i].taken| && log[i].taken[j].task.Some? ==>
          var e := log[i].taken[j];
          e.task.value in done && done[e.task.value] == e.start)
  }

  ghost predicate HistoryOk(p: Params, v0: int, s: Sys) {
    Chain(s.log, v0, s.target) && LogShape(p, s.log, s.open) && Returned(s.log, s.done)
  }

  ghost predicate Inv(p: Params, v0: int, s: Sys) {
    TasksOk(p, s) && HistoryOk(p, v0, s)
  }

  lemma InitInv(p: Params, s: Sys)
    requires Init(p, s)
    ensures Inv(p, s.target, s)
  {
    assert forall t :: Shares(s.log, t) == 0;
  }

  // ---------- Sets of tasks ----------

  lemma CardAdd(ts: set<Task>, t: Task)
    requires t !in ts
    ensures |ts + {t}| == |ts| + 1
  {
  }

  lemma CardRemove(ts: set<Task>, t: Task)
    requires t in ts
    ensures |ts - {t}| == |ts| - 1 && ts == (ts - {t}) + {t}
  {
  }

  lemma InsideCall(s: Sys, loose: set<Task>)
    requires Places(s, loose)
    ensures Participants(s) + loose <= s.inc.Keys && Participants(s) !! loose && Waiters(s) !! loose
  {
    forall t ensures t in Participants(s) + loose ==> t in s.inc
      ensures !(t in Participants(s) && t in loose) && !(t in Waiters(s) && t in loose)
    {
      assert PlaceOk(s, loose, t);
    }
  }

  // ---------- Joining ----------

  lemma JoinPlaces(p: Params, s: Sys, t: Task)
    requires Places(s, {t}) && t in s.inc
    ensures Places(Join(p, s, t), {})
  {
    forall u ensures PlaceOk(Join(p, s, t), {}, u) { assert PlaceOk(s, {t}, u); }
  }

  lemma JoinSets(p: Params, s: Sys, t: Task)
    requires t in s.inc
    ensures Participants(Join(p, s, t)) == Participants(s) + {t} && Waiters(Join(p, s, t)) == Waiters(s)
  {
  }

  lemma JoinAdds(p: Params, s: Sys, t: Task)
    requires t in s.inc && t !in Participants(s) && Adds(p, s, {})
    ensures Adds(p, Join(p, s, t), {})
  {
    var ps := Participants(s);
    JoinSets(p, s, t);
    assert ps + {} == ps && ps + {t} + {} == ps + {t};
    SumWithout(s.inc, ps + {t}, t);
    assert ps + {t} - {t} == ps;
  }

  lemma JoinPhase(p: Params, s: Sys, t: Task)
    requires t in s.inc && Counts(s, 1, 0) && !s.unit.outstanding
    requires s.woken == {} && s.calls == map[] && s.cvReady == {} && s.open == None
    ensures Phase(p, Join(p, s, t))
  {
    var s' := Join(p, s, t);
    if s'.unit.outstanding {
      assert Waiters(s) == {};
      assert Flushing(p, s', t);
    }
  }

  lemma JoinTasks(p: Params, s: Sys, t: Task)
    requires Places(s, {t}) && t in s.inc && Counts(s, 1, 0) && Adds(p, s, {}) && !s.unit.outstanding
    requires s.woken == {} && s.calls == map[] && s.cvReady == {} && s.open == None
    ensures TasksOk(p, Join(p, s, t))
  {
    InsideCall(s, {t});
    JoinPlaces(p, s, t);
    JoinSets(p, s, t);
    JoinAdds(p, s, t);
    JoinPhase(p, s, t);
    hide Phase, Places, Adds, Participants, Waiters;
    CardAdd(Participants(s), t);
  }

  lemma BlockPlaces(p: Params, s: Sys, t: Task)
    requires Places(s, {t}) && t in s.inc && s.unit.outstanding
    ensures Places(BlockOrJoin(p, s, t), {})
  {
    forall u ensures PlaceOk(BlockOrJoin(p, s, t), {}, u) { assert PlaceOk(s, {t}, u); }
  }

  lemma BlockSets(p: Params, s: Sys, t: Task)
    requires t in s.inc && s.unit.outstanding
    ensures var s' := BlockOrJoin(p, s, t); Participants(s') == Participants(s) && Waiters(s') == Waiters(s) + {t}
  {
  }

  lemma BlockTasks(p: Params, s: Sys, t: Task)
    requires Places(s, {t}) && t in s.inc && Counts(s, 1, 0) && Adds(p, s, {}) && s.unit.outstanding && Phase(p, s)
    ensures TasksOk(p, BlockOrJoin(p, s, t))
  {
    hide Phase, Places, Participants, Waiters, SumOver;
    InsideCall(s, {t});
    BlockPlaces(p, s, t);
    BlockSets(p, s, t);
    SamePhase(p, s, BlockOrJoin(p, s, t));
    CardAdd(Waiters(s), t);
  }

  /** A round does not depend on who waits for the unit. */
  lemma SamePhase(p: Params, s: Sys, s': Sys)
    requires Phase(p, s) && s'.unit.outstanding == s.unit.outstanding && s'.unit.committed >= s.unit.committed
    requires s'.unit.increment == s.unit.increment && s'.unit.result == s.unit.result
    requires s'.wokenReady == s.wokenReady && s'.woken == s.woken && s'.cvReceived == s.cvReceived
    requires s.unit.outstanding || s'.cvReady == s.cvReady
    requires s'.calls == s.calls && s'.open == s.open && s.log <= s'.log
    ensures Phase(p, s')
  {
    if s.unit.outstanding {
      if c :| Flushing(p, s, c) { assert Flushing(p, s', c); }
    }
  }

  lemma EnterPlaces(s: Sys, t: Task, k: int)
    requires Places(s, {}) && t in s.promised
    ensures Places(s.(promised := s.promised - {t}, inc := s.inc[t := k]), {t}) && t !in s.inc
  {
    var s1 := s.(promised := s.promised - {t}, inc := s.inc[t := k]);
    assert PlaceOk(s, {}, t);
    forall u ensures PlaceOk(s1, {t}, u) { assert PlaceOk(s, {}, u); }
  }

  lemma EnterAdds(p: Params, s: Sys, t: Task, k: int)
    requires Adds(p, s, {}) && t !in s.inc
    ensures Adds(p, s.(promised := s.promised - {t}, inc := s.inc[t := k]), {})
  {
    var s1 := s.(promised := s.promised - {t}, inc := s.inc[t := k]);
    assert Participants(s1) == Participants(s);
    SumSame(s.inc, s1.inc, Participants(s) + {});
  }

  lemma EnterTasks(p: Params, s: Sys, t: Task, k: int)
    requires TasksOk(p, s) && Enabled(s, Enter(t, k))
    ensures TasksOk(p, Apply(p, s, Enter(t, k)))
  {
    hide Places, SumOver, Adds;
    var s1 := s.(promised := s.promised - {t}, inc := s.inc[t := k]);
    EnterPlaces(s, t, k);
    EnterAdds(p, s, t, k);
    assert Participants(s1) == Participants(s) && Waiters(s1) == Waiters(s);
    CardRemove(s.promised, t);
    if s.unit.outstanding {
      SamePhase(p, s, s1);
      BlockTasks(p, s1, t);
    } else {
      JoinTasks(p, s1, t);
    }
  }

  lemma RetryFinds(p: Params, s: Sys, t: Task)
    requires Phase(p, s) && t in s.wokenReady
    ensures !s.unit.outstanding && Aggregating(s)
  {
  }

  lemma RetryPlaces(p: Params, s: Sys, t: Task, s1: Sys)
    requires Places(s, {}) && t in s.wokenReady && Adds(p, s, {})
    requires s1 == s.(unit := s.unit.(readyWaiters := s.unit.readyWaiters - 1), wokenReady := s.wokenReady - {t})
    ensures Places(s1, {t}) && t in s.inc && Adds(p, s1, {})
    ensures |Participants(s1)| == |Participants(s)| && |Waiters(s1)| == |Waiters(s)| - 1
  {
    forall u ensures PlaceOk(s1, {t}, u) { assert PlaceOk(s, {}, u); }
    assert PlaceOk(s, {}, t);
    assert Participants(s1) == Participants(s) && Waiters(s1) == Waiters(s) - {t};
    CardRemove(Waiters(s), t);
  }

  lemma RetryTasks(p: Params, s: Sys, t: Task)
    requires TasksOk(p, s) && Enabled(s, Retry(t))
    ensures TasksOk(p, Apply(p, s, Retry(t)))
  {
    hide Places, Adds, Phase, Participants, Waiters;
    RetryFinds(p, s, t);
    var s1 := s.(unit := s.unit.(readyWaiters := s.unit.readyWaiters - 1), wokenReady := s.wokenReady - {t});
    RetryPlaces(p, s, t, s1);
    JoinTasks(p, s1, t);
  }

  // ---------- Handing out ----------

  lemma FinishPlaces(s: Sys, t: Task)
    requires Places(s, {t}) && t in s.inc
    ensures Places(Finish(s, t), {})
  {
    forall u ensures PlaceOk(Finish(s, t), {}, u) { assert PlaceOk(s, {t}, u); }
  }

  lemma FinishSets(s: Sys, t: Task)
    requires t in s.inc
    ensures Participants(Finish(s, t)) == Participants(s) && Waiters(Finish(s, t)) == Waiters(s)
  {
  }

  lemma FinishAdds(p: Params, s: Sys, t: Task)
    requires t in s.inc && t !in Participants(s) && Adds(p, s, {t})
    ensures Adds(p, Finish(s, t), {})
  {
    var ps := Participants(s);
    FinishSets(s, t);
    SumWithout(s.inc, ps + {t}, t);
    assert ps + {t} - {t} == ps && ps + {} == ps;
    SumSame(s.inc, Finish(s, t).inc, ps);
  }

  lemma FinishPhase(p: Params, s: Sys, t: Task)
    requires t in s.inc && s.unit.participants == |Participants(s)| + 1 && s.unit.outstanding && HandingOut(p, s)
    ensures Phase(p, Finish(s, t))
  {
    var b := s.log[s.open.value];
    SumTakenSnoc(b.taken, Entry(Some(t), s.inc[t], s.unit.result));
    if Finish(s, t).unit.participants == 0 {
      assert Participants(s) == {};
    }
  }

  /** t, no longer in any place, takes its share of an open round. */
  lemma FinishTasks(p: Params, s: Sys, t: Task)
    requires Places(s, {t}) && t in s.inc && Counts(s, 0, 1) && Adds(p, s, {t}) && s.unit.outstanding && HandingOut(p, s)
    ensures TasksOk(p, Finish(s, t))
  {
    InsideCall(s, {t});
    FinishPlaces(s, t);
    FinishSets(s, t);
    FinishAdds(p, s, t);
    FinishPhase(p, s, t);
    hide Phase, Places, Adds, Participants, Waiters;
  }

  lemma ReplyPlaces(s: Sys, t: Task, s1: Sys)
    requires Places(s, {}) && t in s.calls && s.calls[t].Answered?
    requires s1 == s.(unit := s.unit.(result := s.calls[t].r), calls := s.calls - {t},
                      woken := s.woken + s.cvReceived, cvReceived := {})
    ensures Places(s1, {t}) && t in s.inc
  {
    assert PlaceOk(s, {}, t);
    forall u ensures PlaceOk(s1, {t}, u) { assert PlaceOk(s, {}, u); }
    hide Places, PlaceOk;
  }

  lemma ReplySets(s: Sys, t: Task, s1: Sys)
    requires t in s.calls && t !in s.woken + s.cvReceived && s1.calls == s.calls - {t}
    requires s1.woken == s.woken + s.cvReceived && s1.cvReceived == {} && s1.cvReady == s.cvReady && s1.wokenReady == s.wokenReady
    ensures Participants(s1) == Participants(s) - {t} && t in Participants(s) && Waiters(s1) == Waiters(s)
  {
  }

  lemma ReplyCounts(p: Params, s: Sys, t: Task, s1: Sys)
    requires Counts(s, 0, 0) && Adds(p, s, {}) && t in s.calls && s.calls[t].Answered?
    requires t !in s.woken + s.cvReceived
    requires s1 == s.(unit := s.unit.(result := s.calls[t].r), calls := s.calls - {t},
                      woken := s.woken + s.cvReceived, cvReceived := {})
    ensures Counts(s1, 0, 1) && Adds(p, s1, {t})
  {
    ReplySets(s, t, s1);
    hide Participants, Waiters;
    CardRemove(Participants(s), t);
    assert Participants(s) + {} == Participants(s1) + {t};
  }

  lemma ReplyTasks(p: Params, s: Sys, t: Task)
    requires TasksOk(p, s) && Enabled(s, Reply(t))
    ensures TasksOk(p, Apply(p, s, Reply(t)))
  {
    var s1 := s.(unit := s.unit.(result := s.calls[t].r), calls := s.calls - {t},
                 woken := s.woken + s.cvReceived, cvReceived := {});
    ReplyHandsOut(p, s, t, s1);
    OnlyCaller(p, s, t);
    assert PlaceOk(s, {}, t);
    ReplyPlaces(s, t, s1);
    ReplyCounts(p, s, t, s1);
    hide Places, Phase, HandingOut, Finish, Adds, Participants, Waiters, Flushing;
    FinishTasks(p, s1, t);
  }

  lemma OnlyCaller(p: Params, s: Sys, t: Task)
    requires Phase(p, s) && t in s.calls
    ensures s.unit.outstanding && Flushing(p, s, t)
  {
    var c :| Flushing(p, s, c);
  }

  lemma ResumePlaces(s: Sys, t: Task)
    requires Places(s, {}) && t in s.woken
    ensures Places(s.(woken := s.woken - {t}), {t}) && t !in s.calls && t !in s.cvReceived && t in s.inc
  {
    var s1 := s.(woken := s.woken - {t});
    forall u ensures PlaceOk(s1, {t}, u) { assert PlaceOk(s, {}, u); }
    assert PlaceOk(s, {}, t);
  }

  lemma ResumePhase(p: Params, s: Sys, t: Task)
    requires Phase(p, s) && t in s.woken
    ensures s.unit.outstanding && HandingOut(p, s) && HandingOut(p, s.(woken := s.woken - {t}))
  {
  }

  lemma ResumeSets(s: Sys, t: Task)
    requires t in s.woken && t !in s.calls && t !in s.cvReceived
    ensures var s1 := s.(woken := s.woken - {t});
      && Participants(s) + {} == Participants(s1) + {t} && Waiters(s1) == Waiters(s)
      && |Participants(s1)| == |Participants(s)| - 1
  {
    var s1 := s.(woken := s.woken - {t});
    assert Participants(s1) == Participants(s) - {t};
    CardRemove(Participants(s), t);
  }

  lemma ResumeTasks(p: Params, s: Sys, t: Task)
    requires TasksOk(p, s) && Enabled(s, Resume(t))
    ensures TasksOk(p, Apply(p, s, Resume(t)))
  {
    hide Places, SumOver, Phase, HandingOut, Participants, Waiters;
    ResumePlaces(s, t);
    ResumePhase(p, s, t);
    ResumeSets(s, t);
    FinishTasks(p, s.(woken := s.woken - {t}), t);
  }

  lemma ServeTasks(p: Params, s: Sys, t: Task)
    requires TasksOk(p, s) && Enabled(s, Serve(t))
    ensures TasksOk(p, Apply(p, s, Serve(t)))
  {
    var s' := Apply(p, s, Serve(t));
    OnlyCaller(p, s, t);
    assert s'.calls.Keys == s.calls.Keys;
    forall u ensures PlaceOk(s', {}, u) { assert PlaceOk(s, {}, u); }
    assert Participants(s') == Participants(s) && Waiters(s') == Waiters(s);
    assert Flushing(p, s', t);
  }

  lemma OtherPlaces(p: Params, s: Sys, k: int)
    requires Places(s, {})
    ensures Places(Apply(p, s, Other(k)), {})
  {
    forall u ensures PlaceOk(Apply(p, s, Other(k)), {}, u) { assert PlaceOk(s, {}, u); }
  }

  lemma OtherSets(p: Params, s: Sys, k: int)
    ensures var s' := Apply(p, s, Other(k)); Participants(s') == Participants(s) && Waiters(s') == Waiters(s)
  {
  }

  lemma OtherTasks(p: Params, s: Sys, k: int)
    requires TasksOk(p, s)
    ensures TasksOk(p, Apply(p, s, Other(k)))
  {
    hide Places, SumOver, Phase, Participants, Waiters;
    OtherPlaces(p, s, k);
    OtherSets(p, s, k);
    SamePhase(p, s, Apply(p, s, Other(k)));
  }

  lemma PromisePlaces(s: Sys, t: Task)
    requires Places(s, {}) && t !in s.promised && t !in s.inc && t !in s.done
    ensures Places(s.(unit := Promised(s.unit), promised := s.promised + {t}), {})
  {
    var s' := s.(unit := Promised(s.unit), promised := s.promised + {t});
    forall u ensures PlaceOk(s', {}, u) { assert PlaceOk(s, {}, u); }
  }

  lemma PromiseTasks(p: Params, s: Sys, t: Task)
    requires TasksOk(p, s) && Enabled(s, Promise(t))
    ensures TasksOk(p, Apply(p, s, Promise(t)))
  {
    hide Places, SumOver, Phase;
    var s' := Apply(p, s, Promise(t));
    PromisePlaces(s, t);
    assert Participants(s') == Participants(s) && Waiters(s') == Waiters(s);
    CardAdd(s.promised, t);
    SamePhase(p, s, s');
  }

  lemma StepTasks(p: Params, s: Sys, step: Step)
    requires TasksOk(p, s) && Enabled(s, step)
    ensures TasksOk(p, Apply(p, s, step))
  {
    hide TasksOk, Apply, Enabled;
    match step
    case Promise(t) => PromiseTasks(p, s, t);
    case Enter(t, k) => EnterTasks(p, s, t, k);
    case Retry(t) => RetryTasks(p, s, t);
    case Serve(t) => ServeTasks(p, s, t);
    case Reply(t) => ReplyTasks(p, s, t);
    case Resume(t) => ResumeTasks(p, s, t);
    case Other(k) => OtherTasks(p, s, k);
  }

  // ---------- The history, step by step ----------

  lemma ChainSnoc(log: seq<Block>, v0: int, target: int, b: Block)
    requires Chain(log, v0, target) && b.base == target
    ensures Chain(log + [b], v0, target + b.total)
  {
    assert (log + [b])[..|log|] == log;
  }

  /** The chain does not depend on how shares are handed out. */
  lemma {:induction false} ChainUpdate(log: seq<Block>, v0: int, target: int, i: nat, taken: seq<Entry>)
    requires Chain(log, v0, target) && i < |log|
    ensures Chain(log[i := log[i].(taken := taken)], v0, target)
    decreases |log|
  {
    var n := |log| - 1;
    var log' := log[i := log[i].(taken := taken)];
    if i < n {
      ChainUpdate(log[..n], v0, log[n].base, i, taken);
      assert log'[..n] == log[..n][i := log[i].(taken := taken)];
    } else {
      assert log'[..n] == log[..n];
    }
  }

  lemma SharesSnoc(log: seq<Block>, b: Block, t: Task)
    ensures Shares(log + [b], t) == Shares(log, t) + CountIn(b.taken, t)
  {
    assert (log + [b])[..|log|] == log;
  }

  lemma CountSnoc(taken: seq<Entry>, e: Entry, t: Task)
    ensures CountIn(taken + [e], t) == CountIn(taken, t) + AsNumber(e.task == Some(t))
  {
    assert (taken + [e])[..|taken|] == taken;
  }

  lemma {:induction false} SharesUpdate(log: seq<Block>, i: nat, e: Entry, t: Task)
    requires i < |log|
    ensures Shares(log[i := log[i].(taken := log[i].taken + [e])], t) == Shares(log, t) + AsNumber(e.task == Some(t))
    decreases |log|
  {
    var n := |log| - 1;
    var log' := log[i := log[i].(taken := log[i].taken + [e])];
    if i < n {
      SharesUpdate(log[..n], i, e, t);
      assert log'[..n] == log[..n][i := log[i].(taken := log[i].taken + [e])];
    } else {
      assert log'[..n] == log[..n];
      CountSnoc(log[i].taken, e, t);
    }
  }

  lemma PrefixSnoc(b: Block, e: Entry)
    requires PrefixSums(b) && e.start == b.base + SumTaken(b.taken)
    ensures PrefixSums(b.(taken := b.taken + [e]))
  {
    var b' := b.(taken := b.taken + [e]);
    forall j | 0 <= j < |b'.taken| ensures b'.taken[j].start == b'.base + SumTaken(b'.taken[..j]) {
      assert b'.taken[..j] == b.taken[..j];
      if j == |b.taken| { assert b.taken[..j] == b.taken; }
    }
  }

  lemma AppendReturned(log: seq<Block>, done: map<Task, int>, b: Block)
    requires Returned(log, done) && forall j :: 0 <= j < |b.taken| ==> b.taken[j].task == None
    requires |b.taken| <= 1
    ensures Returned(log + [b], done)
  {
    forall t ensures Shares(log + [b], t) == if t in done then 1 else 0 {
      SharesSnoc(log, b, t);
      assert CountIn(b.taken, t) == 0;
    }
  }

  /** A remote add by anyone extends the chain. */
  lemma AppendHistory(p: Params, v0: int, s: Sys, s': Sys, b: Block)
    requires HistoryOk(p, v0, s) && s'.log == s.log + [b] && s'.done == s.done
    requires b.base == s.target && s'.target == s.target + b.total && (b.extra == 0 || b.extra == p.initVal)
    requires |b.taken| <= 1 && (forall j :: 0 <= j < |b.taken| ==> b.taken[j].task == None) && PrefixSums(b)
    requires (s'.open == s.open && Closed(b)) || (s.open == None && s'.open == Some(|s.log|))
    ensures HistoryOk(p, v0, s')
  {
    ChainSnoc(s.log, v0, s.target, b);
    AppendReturned(s.log, s.done, b);
    hide Chain, Returned, PrefixSums, Closed;
    forall i: nat | i < |s'.log|
      ensures PrefixSums(s'.log[i]) && (s'.log[i].extra == 0 || s'.log[i].extra == p.initVal) && (s'.open != Some(i) ==> Closed(s'.log[i]))
    {
      if i < |s.log| { assert s'.log[i] == s.log[i]; }
    }
  }

  lemma HandReturned(log: seq<Block>, done: map<Task, int>, i: nat, t: Task, inc: int, start: int)
    requires Returned(log, done) && i < |log| && t !in done
    ensures Returned(log[i := log[i].(taken := log[i].taken + [Entry(Some(t), inc, start)])], done[t := start])
  {
    var e := Entry(Some(t), inc, start);
    var log' := log[i := log[i].(taken := log[i].taken + [e])];
    forall u ensures Shares(log', u) == if u in done[t := start] then 1 else 0 {
      SharesUpdate(log, i, e, u);
    }
  }

  lemma HandShape(p: Params, log: seq<Block>, i: nat, e: Entry, open: Option<nat>)
    requires LogShape(p, log, Some(i)) && i < |log| && e.start == log[i].base + SumTaken(log[i].taken)
    requires open == Some(i) || (open == None && log[i].total == SumTaken(log[i].taken) + e.inc + log[i].extra)
    ensures LogShape(p, log[i := log[i].(taken := log[i].taken + [e])], open)
  {
    PrefixSnoc(log[i], e);
    SumTakenSnoc(log[i].taken, e);
    hide PrefixSums;
  }

  /** Handing out a share keeps the history, and the last share closes the round. */
  lemma FinishHistory(p: Params, v0: int, s: Sys, t: Task)
    requires HistoryOk(p, v0, s) && HandingOut(p, s) && t in s.inc && t !in s.done
    requires TasksOk(p, Finish(s, t))
    ensures HistoryOk(p, v0, Finish(s, t))
  {
    var s', i := Finish(s, t), s.open.value;
    var e := Entry(Some(t), s.inc[t], s.unit.result);
    var b := s.log[i];
    if s'.unit.participants == 0 { NothingLeft(p, s'); }
    hide Chain, Returned, LogShape, TasksOk;
    ChainUpdate(s.log, v0, s.target, i, b.taken + [e]);
    HandReturned(s.log, s.done, i, t, s.inc[t], s.unit.result);
    HandShape(p, s.log, i, e, s'.open);
  }

  /** With no participants the unit's increment is back at its initial value. */
  lemma NothingLeft(p: Params, s: Sys)
    requires TasksOk(p, s) && s.unit.participants == 0
    ensures s.unit.increment == p.initVal
  {
    assert Participants(s) + {} == {};
  }

  lemma NotReturned(s: Sys, t: Task)
    requires Places(s, {}) && t in s.inc
    ensures t !in s.done
  {
    assert PlaceOk(s, {}, t);
  }

  /** The caller has received the result: the round it started is being handed out. */
  lemma ReplyHandsOut(p: Params, s: Sys, t: Task, s1: Sys)
    requires Phase(p, s) && t in s.calls && s.calls[t].Answered?
    requires s1 == s.(unit := s.unit.(result := s.calls[t].r), calls := s.calls - {t},
                      woken := s.woken + s.cvReceived, cvReceived := {})
    ensures HandingOut(p, s1)
  {
    OnlyCaller(p, s, t);
    assert SumTaken([]) == 0;
    assert s1.calls == map[];
  }

  lemma ReplyHistory(p: Params, v0: int, s: Sys, t: Task)
    requires TasksOk(p, s) && HistoryOk(p, v0, s) && Enabled(s, Reply(t))
    ensures HistoryOk(p, v0, Apply(p, s, Reply(t)))
  {
    hide HistoryOk, Phase, Places, Counts, Adds, HandingOut, Finish;
    var s1 := s.(unit := s.unit.(result := s.calls[t].r), calls := s.calls - {t},
                 woken := s.woken + s.cvReceived, cvReceived := {});
    NotReturned(s, t);
    ReplyHandsOut(p, s, t, s1);
    ReplyTasks(p, s, t);
    SameHistory(p, v0, s, s1);
    FinishHistory(p, v0, s1, t);
  }

  lemma ResumeHistory(p: Params, v0: int, s: Sys, t: Task)
    requires TasksOk(p, s) && HistoryOk(p, v0, s) && Enabled(s, Resume(t))
    ensures HistoryOk(p, v0, Apply(p, s, Resume(t)))
  {
    NotReturned(s, t);
    ResumePhase(p, s, t);
    ResumeTasks(p, s, t);
    hide TasksOk, Chain, Returned, LogShape;
    FinishHistory(p, v0, s.(woken := s.woken - {t}), t);
  }

  lemma ServeHistory(p: Params, v0: int, s: Sys, t: Task)
    requires TasksOk(p, s) && HistoryOk(p, v0, s) && Enabled(s, Serve(t))
    ensures HistoryOk(p, v0, Apply(p, s, Serve(t)))
  {
    hide HistoryOk;
    OnlyCaller(p, s, t);
    AppendHistory(p, v0, s, Apply(p, s, Serve(t)), Block(s.target, s.calls[t].total, p.initVal, []));
  }

  lemma OtherHistory(p: Params, v0: int, s: Sys, k: int)
    requires HistoryOk(p, v0, s)
    ensures HistoryOk(p, v0, Apply(p, s, Other(k)))
  {
    hide HistoryOk;
    var e := Entry(None, k, s.target);
    SumTakenSnoc([], e);
    assert [] + [e] == [e];
    AppendHistory(p, v0, s, Apply(p, s, Other(k)), Block(s.target, k, 0, [e]));
  }

  lemma SameHistory(p: Params, v0: int, s: Sys, s': Sys)
    requires HistoryOk(p, v0, s) && s'.log == s.log && s'.done == s.done && s'.target == s.target && s'.open == s.open
    ensures HistoryOk(p, v0, s')
  {
  }

  lemma StepHistory(p: Params, v0: int, s: Sys, step: Step)
    requires TasksOk(p, s) && HistoryOk(p, v0, s) && Enabled(s, step)
    ensures HistoryOk(p, v0, Apply(p, s, step))
  {
    hide TasksOk, HistoryOk;
    match step
    case Serve(t) => ServeHistory(p, v0, s, t);
    case Other(k) => OtherHistory(p, v0, s, k);
    case Reply(t) => ReplyHistory(p, v0, s, t);
    case Resume(t) => ResumeHistory(p, v0, s, t);
    case Promise(t) => SameHistory(p, v0, s, Apply(p, s, step));
    case Enter(t, k) => SameHistory(p, v0, s, Apply(p, s, step));
    case Retry(t) => SameHistory(p, v0, s, Apply(p, s, step));
  }

  lemma {:induction false} RunInv(p: Params, v0: int, s: Sys, steps: seq<Step>, s': Sys)
    requires Inv(p, v0, s) && Run(p, s, steps, s')
    ensures Inv(p, v0, s')
    decreases |steps|
  {
    hide TasksOk, HistoryOk, Apply, Enabled;
    if steps != [] {
      StepTasks(p, s, steps[0]);
      StepHistory(p, v0, s, steps[0]);
      RunInv(p, v0, Apply(p, s, steps[0]), steps[1..], s');
    }
  }

  lemma ReachableInv(p: Params, s: Sys, steps: seq<Step>, s': Sys)
    requires Init(p, s) && Run(p, s, steps, s')
    ensures Inv(p, s.target, s')
  {
    InitInv(p, s);
    RunInv(p, s.target, s, steps, s');
  }

  // ---------- Atomic fetch-and-add ----------

  /** Adds executed one after the other from v0 on: each fetches the sum of those before. */
  predicate Atomic(entries: seq<Entry>, v0: int) {
    forall j :: 0 <= j < |entries| ==> entries[j].start == v0 + SumTaken(entries[..j])
  }

  /** All shares in the order of the adds that fetched them. */
  function Flatten(log: seq<Block>): seq<Entry>
    decreases |log|
  {
    if log == [] then [] else Flatten(log[..|log| - 1]) + log[|log| - 1].taken
  }

  lemma {:induction false} SumTakenConcat(e1: seq<Entry>, e2: seq<Entry>)
    ensures SumTaken(e1 + e2) == SumTaken(e1) + SumTaken(e2)
    decreases |e2|
  {
    if e2 == [] {
      assert e1 + e2 == e1;
    } else {
      var n := |e2| - 1;
      SumTakenConcat(e1, e2[..n]);
      SumTakenSnoc(e1 + e2[..n], e2[n]);
      assert e1 + e2 == (e1 + e2[..n]) + [e2[n]];
    }
  }

  lemma AtomicConcat(e1: seq<Entry>, b: Block, v0: int)
    requires Atomic(e1, v0) && PrefixSums(b) && b.base == v0 + SumTaken(e1)
    ensures Atomic(e1 + b.taken, v0)
  {
    var e := e1 + b.taken;
    forall j | 0 <= j < |e| ensures e[j].start == v0 + SumTaken(e[..j]) {
      if j < |e1| {
        assert e[..j] == e1[..j];
      } else {
        var k := j - |e1|;
        assert e[..j] == e1 + b.taken[..k];
        SumTakenConcat(e1, b.taken[..k]);
      }
    }
  }

  lemma {:induction false} FlattenAtomic(log: seq<Block>, v0: int, target: int)
    requires Chain(log, v0, target)
    requires forall i: nat :: i < |log| ==> PrefixSums(log[i]) && Closed(log[i]) && log[i].extra == 0
    ensures Atomic(Flatten(log), v0) && target == v0 + SumTaken(Flatten(log))
    decreases |log|
  {
    if log != [] {
      var n := |log| - 1;
      FlattenAtomic(log[..n], v0, log[n].base);
      AtomicConcat(Flatten(log[..n]), log[n], v0);
      SumTakenConcat(Flatten(log[..n]), log[n].taken);
    }
  }

  /**
   The shares handed out for one add are the successive prefix sums of the
   participants' increments from the value that add fetched; at most one add has
   shares outstanding; every task that returned got exactly one share, the start it
   returned.
   */
  lemma RoundsArePrefixSums(p: Params, s: Sys, steps: seq<Step>, s': Sys)
    requires Init(p, s) && Run(p, s, steps, s')
    ensures Chain(s'.log, s.target, s'.target) && Returned(s'.log, s'.done)
    ensures forall i: nat :: i < |s'.log| ==> PrefixSums(s'.log[i]) && (s'.open != Some(i) ==> Closed(s'.log[i]))
  {
    ReachableInv(p, s, steps, s');
    hide Chain, Returned, TasksOk, PrefixSums, Closed;
  }

  /** With initVal 0, between rounds the history is one of atomic fetch-and-adds, the combiner's and all others'. */
  lemma CombiningIsAtomic(p: Params, s: Sys, steps: seq<Step>, s': Sys)
    requires p.initVal == 0 && Init(p, s) && Run(p, s, steps, s') && s'.open == None
    ensures Atomic(Flatten(s'.log), s.target) && s'.target == s.target + SumTaken(Flatten(s'.log))
  {
    ReachableInv(p, s, steps, s');
    FlattenAtomic(s'.log, s.target, s'.target);
  }

  /** A woken waiter always finds the unit aggregating: it joins, and never waits for the unit twice. */
  lemma RetryJoins(p: Params, s: Sys, steps: seq<Step>, s': Sys, t: Task)
    requires Init(p, s) && Run(p, s, steps, s') && Enabled(s', Retry(t))
    ensures !s'.unit.outstanding
    ensures t in Participants(Apply(p, s', Retry(t))) && t !in Waiters(Apply(p, s', Retry(t)))
  {
    ReachableInv(p, s, steps, s');
    RetryFinds(p, s', t);
    assert PlaceOk(s', {}, t);
  }

  /** The check when the last participant leaves, that the increment is 0, holds exactly when initVal is 0. */
  lemma CheckIff(p: Params, s: Sys, steps: seq<Step>, s': Sys, step: Step)
    requires Init(p, s) && Run(p, s, steps, s') && (step.Reply? || step.Resume?) && Enabled(s', step)
    requires Apply(p, s', step).unit.participants == 0
    ensures Apply(p, s', step).unit.increment == 0 <==> p.initVal == 0
  {
    ReachableInv(p, s, steps, s');
    hide HistoryOk;
    StepTasks(p, s', step);
    hide TasksOk, Apply;
    NothingLeft(p, Apply(p, s', step));
  }

  lemma RunNext(p: Params, s: Sys, step: Step, steps: seq<Step>, s': Sys)
    requires Enabled(s, step) && Run(p, Apply(p, s, step), steps, s')
    ensures Run(p, s, [step] + steps, s')
  {
    assert ([step] + steps)[1..] == steps;
  }

  /** A single caller's round on its own: it ends, and leaves the increment at initVal. */
  lemma LoneRound(p: Params, s: Sys, t: Task, k: int)
    requires Init(p, s)
    ensures exists s' ::
      && Run(p, s, [Promise(t), Enter(t, k), Serve(t), Reply(t)], s')
      && s'.unit.participants == 0 && s'.unit.increment == p.initVal
  {
    var s1 := Apply(p, s, Promise(t));
    var s2 := Apply(p, s1, Enter(t, k));
    assert s2.calls == map[t := Requested(p.initVal + k)] && s2.inc == map[t := k] && s2.cvReceived == {};
    var s3 := Apply(p, s2, Serve(t));
    var s4 := Apply(p, s3, Reply(t));
    assert Run(p, s4, [], s4);
    hide Run, Enabled, Apply;
    RunNext(p, s3, Reply(t), [], s4);
    RunNext(p, s2, Serve(t), [Reply(t)] + [], s4);
    RunNext(p, s1, Enter(t, k), [Serve(t)] + ([Reply(t)] + []), s4);
    RunNext(p, s, Promise(t), [Enter(t, k)] + ([Serve(t)] + ([Reply(t)] + [])), s4);
    assert [Promise(t)] + ([Enter(t, k)] + ([Serve(t)] + ([Reply(t)] + []))) == [Promise(t), Enter(t, k), Serve(t), Reply(t)];
  }

  /** A step that the runtime will take by itself. */
  ghost predicate CanGoOn(s: Sys) {
    exists t :: Enabled(s, Retry(t)) || Enabled(s, Serve(t)) || Enabled(s, Reply(t)) || Enabled(s, Resume(t))
  }

  lemma GoesOn(p: Params, s: Sys)
    requires TasksOk(p, s) && s.inc != map[]
    ensures CanGoOn(s) || s.promised != {}
  {
    if s.unit.outstanding {
      RoundGoesOn(p, s);
    } else {
      assert s.cvReceived != {} || s.wokenReady != {} by {
        var t :| t in s.inc;
        assert PlaceOk(s, {}, t);
      }
      if t :| t in s.wokenReady {
        assert PlaceOk(s, {}, t);
        assert Enabled(s, Retry(t));
      } else {
        assert Waiters(s) == {};
      }
    }
  }

  /** A task inside the call is waiting in vain only while some promised caller is still to come. */
  lemma NobodyStranded(p: Params, s: Sys, steps: seq<Step>, s': Sys)
    requires Init(p, s) && Run(p, s, steps, s') && s'.inc != map[]
    ensures CanGoOn(s') || s'.promised != {}
  {
    ReachableInv(p, s, steps, s');
    hide HistoryOk;
    GoesOn(p, s');
  }

  lemma RoundGoesOn(p: Params, s: Sys)
    requires TasksOk(p, s) && s.unit.outstanding
    ensures CanGoOn(s)
  {
    if c :| Flushing(p, s, c) {
      assert c in s.calls && PlaceOk(s, {}, c);
      assert Enabled(s, Serve(c)) || Enabled(s, Reply(c));
    } else {
      var t :| t in s.woken;
      assert PlaceOk(s, {}, t);
      assert Enabled(s, Resume(t));
    }
  }

  /** Tasks that wait for the unit wait only while a round is under way, and no joining is possible then. */
  lemma RoundsDoNotMix(p: Params, s: Sys, steps: seq<Step>, s': Sys)
    requires Init(p, s) && Run(p, s, steps, s')
    ensures s'.woken != {} || s'.calls != map[] ==> s'.unit.outstanding && s'.wokenReady == {}
    ensures s'.cvReady != {} ==> s'.unit.outstanding && CanGoOn(s')
  {
    ReachableInv(p, s, steps, s');
    if s'.cvReady != {} { RoundGoesOn(p, s'); }
    if s'.unit.outstanding {
      if c :| Flushing(p, s', c) { assert s'.wokenReady == {}; }
    }
  }
}
