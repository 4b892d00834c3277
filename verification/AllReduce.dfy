/**
 allreduce: every core contributes a value per round and reads the reduction of all
 values of the round.  Contributions and results are messages that arrive in any order,
 and fast cores may be a round ahead of slow ones.
 */
module AllReduce {
  import opened Basics
  import opened Folds

  // ---------- Collecting on the home core ----------

  /** The total so far and the number of cores that are in. */
  datatype Collector<T> = Collector(total: Option<T>, coresIn: nat)

  /** `collect_reduction`: the collector afterwards, and the total to broadcast if this was the last core. */
  function Collected<T>(h: Collector<T>, op: (T, T) -> T, val: T, cores: nat): (Collector<T>, Option<T>) {
    var total := if h.coresIn == 0 || h.total == None then val else op(h.total.value, val);
    if h.coresIn + 1 == cores then (Collector(Some(total), 0), Some(total))
    else (Collector(Some(total), h.coresIn + 1), None)
  }

  class HomeCore<T> {
    const op: (T, T) -> T
    const cores: nat
    var total: Option<T>
    var coresIn: nat

    ghost function View(): Collector<T>
      reads this
    {
      Collector(total, coresIn)
    }

    constructor (op: (T, T) -> T, cores: nat)
      ensures this.op == op && this.cores == cores && View() == Collector(None, 0)
    {
      this.op := op;
      this.cores := cores;
      total, coresIn := None, 0;
    }

    method CollectReduction(val: T) returns (result: Option<T>)
      requires coresIn > 0 ==> total.Some?
      modifies this
      ensures total.Some? && (View(), result) == Collected(old(View()), op, val, cores)
    {
      if coresIn == 0 {
        total := Some(val);
      } else {
        total := Some(op(total.value, val));
      }
      coresIn := coresIn + 1;
      result := None;
      if coresIn == cores {
        coresIn := 0;
        result := total;
      }
    }
  }

  // ---------- All cores and messages ----------

  /** A core: the results it has returned, whether it is waiting for one, and its result cell. */
  datatype Core<T> = Core(results: seq<T>, waiting: bool, cell: Option<T>)

  datatype Reply<T> = Reply(core: nat, value: T)

  datatype Sys<T(==)> = Sys(
    home: Collector<T>,
    cores: seq<Core<T>>,
    sent: map<nat, T>,              // contributions on their way to the home core
    replies: multiset<Reply<T>>,    // results on their way to the cores
    round: nat,                     // rounds collected so far
    arrived: set<nat>)              // cores that are in for the next one

  datatype Step<T> = Call(c: nat) | Collect(c: nat) | Result(c: nat, value: T) | Read(c: nat)

  function Init<T(==)>(n: nat): Sys<T> {
    Sys(Collector(None, 0), seq(n, _ => Core([], false, None)), map[], multiset{}, 0, {})
  }

  predicate Enabled<T(==)>(s: Sys<T>, step: Step<T>) {
    match step
    case Call(c) => c < |s.cores| && !s.cores[c].waiting
    case Collect(c) => c in s.sent
    case Result(c, value) => c < |s.cores| && Reply(c, value) in s.replies
    case Read(c) => c < |s.cores| && s.cores[c].waiting && s.cores[c].cell.Some?
  }

  function ToAll<T(==)>(n: nat, value: T): multiset<Reply<T>> {
    if n == 0 then multiset{} else ToAll(n - 1, value) + multiset{Reply(n - 1, value)}
  }

  /** v(c, k) is what core c contributes to its k-th call. */
  function Apply<T(==)>(op: (T, T) -> T, v: (nat, nat) -> T, s: Sys<T>, step: Step<T>): Sys<T>
    requires Enabled(s, step)
  {
    match step
    case Call(c) =>
      var x := s.cores[c];
      s.(cores := s.cores[c := x.(waiting := true, cell := None)], sent := s.sent[c := v(c, |x.results|)])
    case Collect(c) =>
      var (home, result) := Collected(s.home, op, s.sent[c], |s.cores|);
      var s1 := s.(home := home, sent := s.sent - {c});
      if result.Some?
      then s1.(replies := s.replies + ToAll(|s.cores|, result.value), round := s.round + 1, arrived := {})
      else s1.(arrived := s.arrived + {c})
    case Result(c, value) =>
      s.(replies := s.replies - multiset{Reply(c, value)}, cores := s.cores[c := s.cores[c].(cell := Some(value))])
    case Read(c) =>
      var x := s.cores[c];
      s.(cores := s.cores[c := x.(results := x.results + [x.cell.value], waiting := false)])
  }

  ghost predicate Run<T(!new)>(op: (T, T) -> T, v: (nat, nat) -> T, s: Sys<T>, steps: seq<Step<T>>, s': Sys<T>)
    decreases |steps|
  {
    if steps == [] then s' == s
    else Enabled(s, steps[0]) && Run(op, v, Apply(op, v, s, steps[0]), steps[1..], s')
  }

  // ---------- The invariant ----------

  /** The k-th result. */
  ghost function Reduced<T>(op: (T, T) -> T, v: (nat, nat) -> T, n: nat, k: nat): T
    requires n >= 1
  {
    Fold(op, v, k, CoreSet(n))
  }

  ghost predicate NoReply<T(!new)>(s: Sys<T>, c: nat) {
    forall x :: Reply(c, x) !in s.replies
  }

  /** The only reply on its way to c is r. */
  ghost predicate OneReply<T(!new)>(s: Sys<T>, c: nat, r: T) {
    s.replies[Reply(c, r)] == 1 && forall x :: x != r ==> Reply(c, x) !in s.replies
  }

  /** A core that has not finished the round: not called, its contribution on the way, or in. */
  ghost predicate InRound<T(!new)>(v: (nat, nat) -> T, s: Sys<T>, c: nat)
    requires c < |s.cores|
  {
    var x := s.cores[c];
    && |x.results| == s.round && NoReply(s, c)
    && (x.waiting ==> x.cell == None && (c in s.sent <==> c !in s.arrived) && (c in s.sent ==> s.sent[c] == v(c, s.round)))
    && (!x.waiting ==> c !in s.sent && c !in s.arrived)
  }

  /** A core that has yet to read the last result: on its way, or in the cell. */
  ghost predicate Behind<T(!new)>(op: (T, T) -> T, v: (nat, nat) -> T, s: Sys<T>, c: nat)
    requires c < |s.cores|
  {
    var x := s.cores[c];
    && |x.results| + 1 == s.round && x.waiting && c !in s.sent && c !in s.arrived
    && var r := Reduced(op, v, |s.cores|, s.round - 1);
       if x.cell == None then OneReply(s, c, r) else x.cell == Some(r) && NoReply(s, c)
  }

  ghost predicate CoreOk<T(!new)>(op: (T, T) -> T, v: (nat, nat) -> T, s: Sys<T>, c: nat) {
    c < |s.cores| ==>
      && (InRound(v, s, c) || Behind(op, v, s, c))
      && forall j :: 0 <= j < |s.cores[c].results| ==> s.cores[c].results[j] == Reduced(op, v, |s.cores|, j)
  }

  ghost predicate HomeOk<T(!new)>(op: (T, T) -> T, v: (nat, nat) -> T, s: Sys<T>) {
    && s.arrived <= CoreSet(|s.cores|) && s.sent.Keys <= CoreSet(|s.cores|)
    && s.home.coresIn == |s.arrived| && s.home.coresIn < |s.cores|
    && (s.arrived != {} ==> s.home.total == Some(Fold(op, v, s.round, s.arrived)))
  }

  ghost predicate Inv<T(!new)>(op: (T, T) -> T, v: (nat, nat) -> T, s: Sys<T>) {
    |s.cores| >= 1 && HomeOk(op, v, s) && forall c :: CoreOk(op, v, s, c)
  }

  lemma InitInv<T(!new)>(op: (T, T) -> T, v: (nat, nat) -> T, n: nat)
    requires n >= 1
    ensures Inv(op, v, Init<T>(n))
  {
  }

  lemma CallInv<T(!new)>(op: (T, T) -> T, v: (nat, nat) -> T, s: Sys<T>, c: nat)
    requires Inv(op, v, s) && Enabled(s, Call(c))
    ensures Inv(op, v, Apply(op, v, s, Call(c)))
  {
    var s' := Apply(op, v, s, Call(c));
    assert CoreOk(op, v, s, c);
    forall d: nat ensures CoreOk(op, v, s', d) { assert CoreOk(op, v, s, d); }
  }

  lemma ReadInv<T(!new)>(op: (T, T) -> T, v: (nat, nat) -> T, s: Sys<T>, c: nat)
    requires Inv(op, v, s) && Enabled(s, Read(c))
    ensures Inv(op, v, Apply(op, v, s, Read(c)))
  {
    var s' := Apply(op, v, s, Read(c));
    assert CoreOk(op, v, s, c);
    forall d: nat ensures CoreOk(op, v, s', d) { assert CoreOk(op, v, s, d); }
  }

  lemma ResultInv<T(!new)>(op: (T, T) -> T, v: (nat, nat) -> T, s: Sys<T>, c: nat, value: T)
    requires Inv(op, v, s) && Enabled(s, Result(c, value))
    ensures Inv(op, v, Apply(op, v, s, Result(c, value)))
  {
    var s' := Apply(op, v, s, Result(c, value));
    assert CoreOk(op, v, s, c);
    forall d: nat ensures CoreOk(op, v, s', d) {
      assert CoreOk(op, v, s, d);
      assert d != c ==> forall x :: s'.replies[Reply(d, x)] == s.replies[Reply(d, x)];
    }
  }

  lemma {:induction false} ToAllCount<T(!new)>(n: nat, value: T, c: nat, x: T)
    ensures ToAll(n, value)[Reply(c, x)] == if c < n && x == value then 1 else 0
  {
    if n > 0 { ToAllCount(n - 1, value, c, x); }
  }

  /** A contribution that is not the last of its round. */
  lemma CollectSomeEffect<T(!new)>(op: (T, T) -> T, v: (nat, nat) -> T, s: Sys<T>, c: nat)
    requires Enabled(s, Collect(c)) && s.home.coresIn + 1 < |s.cores|
    ensures var s' := Apply(op, v, s, Collect(c));
      s' == s.(home := s'.home, sent := s.sent - {c}, arrived := s.arrived + {c})
  {
  }

  lemma CollectSomeCore<T(!new)>(op: (T, T) -> T, v: (nat, nat) -> T, s: Sys<T>, s': Sys<T>, c: nat, d: nat)
    requires CoreOk(op, v, s, d) && CoreOk(op, v, s, c) && c < |s.cores| && c in s.sent && c !in s.arrived
    requires s' == s.(home := s'.home, sent := s.sent - {c}, arrived := s.arrived + {c})
    ensures CoreOk(op, v, s', d)
  {
    hide Reduced;
    if d < |s.cores| && InRound(v, s, d) {
      assert InRound(v, s', d);
    }
  }

  /** The contribution of core c arrives, and others are still missing. */
  lemma CollectSomeInv<T(!new)>(op: (T, T) -> T, v: (nat, nat) -> T, s: Sys<T>, c: nat)
    requires Commutes(op) && Inv(op, v, s) && Enabled(s, Collect(c)) && s.home.coresIn + 1 < |s.cores|
    ensures Inv(op, v, Apply(op, v, s, Collect(c)))
  {
    CollectTotal(op, v, s, c);
    CollectSomeEffect(op, v, s, c);
    var s' := Apply(op, v, s, Collect(c));
    assert CoreOk(op, v, s, c);
    forall d: nat ensures CoreOk(op, v, s', d) {
      assert CoreOk(op, v, s, d);
      hide HomeOk, Apply, Collected;
      CollectSomeCore(op, v, s, s', c, d);
    }
    hide CoreOk, Commutes, Fold;
  }

  /** What the home core has once c's contribution is in. */
  lemma CollectTotal<T(!new)>(op: (T, T) -> T, v: (nat, nat) -> T, s: Sys<T>, c: nat)
    requires Commutes(op) && Inv(op, v, s) && Enabled(s, Collect(c))
    ensures c !in s.arrived && c < |s.cores| && s.sent[c] == v(c, s.round)
    ensures Collected(s.home, op, s.sent[c], |s.cores|).0.total == Some(Fold(op, v, s.round, s.arrived + {c}))
  {
    assert CoreOk(op, v, s, c);
    hide CoreOk, Reduced;
    if s.arrived == {} {
      assert s.arrived + {c} == {c};
      FoldOne(op, v, s.round, c);
    } else {
      FoldWith(op, v, s.round, s.arrived, c);
      assert |s.arrived| > 0;
    }
    hide Fold, Commutes, CoreSet;
  }

  /** The last contribution completes the round: everyone is in, and everyone gets the result. */
  lemma CollectLastCore<T(!new)>(op: (T, T) -> T, v: (nat, nat) -> T, s: Sys<T>, c: nat, d: nat)
    requires Inv(op, v, s) && Enabled(s, Collect(c)) && s.home.coresIn + 1 == |s.cores|
    requires s.arrived + {c} == CoreSet(|s.cores|)
    requires Collected(s.home, op, s.sent[c], |s.cores|).1 == Some(Reduced(op, v, |s.cores|, s.round))
    ensures CoreOk(op, v, Apply(op, v, s, Collect(c)), d)
  {
    var s', n := Apply(op, v, s, Collect(c)), |s.cores|;
    var r := Reduced(op, v, n, s.round);
    hide Reduced, Collected;
    assert CoreOk(op, v, s, d) && CoreOk(op, v, s, c);
    if d < n {
      assert d in s.arrived + {c};
      assert InRound(v, s, d);
      forall x ensures s'.replies[Reply(d, x)] == s.replies[Reply(d, x)] + if x == r then 1 else 0 {
        ToAllCount(n, r, d, x);
      }
    }
  }

  lemma CollectLastHome<T(!new)>(op: (T, T) -> T, v: (nat, nat) -> T, s: Sys<T>, c: nat)
    requires |s.cores| >= 1 && HomeOk(op, v, s) && Enabled(s, Collect(c)) && s.home.coresIn + 1 == |s.cores|
    ensures |Apply(op, v, s, Collect(c)).cores| >= 1 && HomeOk(op, v, Apply(op, v, s, Collect(c)))
  {
    hide Fold, ToAll, CoreSet;
    var s' := Apply(op, v, s, Collect(c));
    assert s'.arrived == {} && s'.sent.Keys <= s.sent.Keys && s'.home.coresIn == 0;
  }

  lemma LastArrives(arrived: set<nat>, c: nat, n: nat)
    requires arrived <= CoreSet(n) && c < n && c !in arrived && |arrived| + 1 == n
    ensures arrived + {c} == CoreSet(n)
  {
    hide CoreSet;
    assert |arrived + {c}| == n;
    FullSet(arrived + {c}, n);
  }

  lemma CollectLastFull<T(!new)>(op: (T, T) -> T, v: (nat, nat) -> T, s: Sys<T>, c: nat)
    requires Commutes(op) && Inv(op, v, s) && Enabled(s, Collect(c)) && s.home.coresIn + 1 == |s.cores|
    ensures c < |s.cores| && c in s.sent && s.arrived + {c} == CoreSet(|s.cores|)
    ensures Collected(s.home, op, s.sent[c], |s.cores|).1 == Some(Reduced(op, v, |s.cores|, s.round))
  {
    CollectTotal(op, v, s, c);
    hide Commutes, CoreOk, Fold, CoreSet;
    LastArrives(s.arrived, c, |s.cores|);
  }

  lemma CollectLastInv<T(!new)>(op: (T, T) -> T, v: (nat, nat) -> T, s: Sys<T>, c: nat)
    requires Commutes(op) && Inv(op, v, s) && Enabled(s, Collect(c)) && s.home.coresIn + 1 == |s.cores|
    ensures Inv(op, v, Apply(op, v, s, Collect(c)))
  {
    CollectLastFull(op, v, s, c);
    CollectLastHome(op, v, s, c);
    var s' := Apply(op, v, s, Collect(c));
    hide HomeOk, CoreOk, Reduced, Apply, Collected, CoreSet;
    forall d: nat ensures CoreOk(op, v, s', d) { CollectLastCore(op, v, s, c, d); }
  }

  lemma StepInv<T(!new)>(op: (T, T) -> T, v: (nat, nat) -> T, s: Sys<T>, step: Step<T>)
    requires Commutes(op) && Inv(op, v, s) && Enabled(s, step)
    ensures Inv(op, v, Apply(op, v, s, step))
  {
    hide Apply;
    match step
    case Call(c) => CallInv(op, v, s, c);
    case Collect(c) => if s.home.coresIn + 1 == |s.cores| { CollectLastInv(op, v, s, c); } else { CollectSomeInv(op, v, s, c); }
    case Result(c, value) => ResultInv(op, v, s, c, value);
    case Read(c) => ReadInv(op, v, s, c);
  }

  lemma {:induction false} RunInv<T(!new)>(op: (T, T) -> T, v: (nat, nat) -> T, s: Sys<T>, steps: seq<Step<T>>, s': Sys<T>)
    requires Commutes(op) && Inv(op, v, s) && Run(op, v, s, steps, s')
    ensures Inv(op, v, s')
    decreases |steps|
  {
    hide Inv, Apply, Enabled, Commutes;
    if steps != [] {
      StepInv(op, v, s, steps[0]);
      RunInv(op, v, Apply(op, v, s, steps[0]), steps[1..], s');
    }
  }

  /** The k-th result on every core is the reduction of all cores' k-th contributions. */
  lemma ResultsAreReductions<T(!new)>(op: (T, T) -> T, v: (nat, nat) -> T, n: nat, steps: seq<Step<T>>, s: Sys<T>, c: nat, k: nat)
    requires Commutes(op) && n >= 1 && Run(op, v, Init(n), steps, s) && c < |s.cores| && k < |s.cores[c].results|
    ensures |s.cores| >= 1 && s.cores[c].results[k] == Reduced(op, v, |s.cores|, k)
  {
    InitInv(op, v, n);
    RunInv(op, v, Init(n), steps, s);
    assert CoreOk(op, v, s, c);
  }

  lemma WaitsForSomething<T(!new)>(op: (T, T) -> T, v: (nat, nat) -> T, s: Sys<T>, c: nat)
    requires Inv(op, v, s) && c < |s.cores| && s.cores[c].waiting
    ensures Enabled(s, Read(c)) || (exists x :: Enabled(s, Result(c, x))) || (exists d :: Enabled(s, Collect(d)))
      || (exists d :: 0 <= d < |s.cores| &&
            (|s.cores[d].results| < |s.cores[c].results| || (!s.cores[d].waiting && |s.cores[d].results| == |s.cores[c].results|)))
  {
    assert CoreOk(op, v, s, c);
    if Behind(op, v, s, c) {
      if s.cores[c].cell == None {
        assert Enabled(s, Result(c, Reduced(op, v, |s.cores|, s.round - 1)));
      }
    } else if s.sent != map[] {
      var d :| d in s.sent;
      assert Enabled(s, Collect(d));
    } else {
      FullSet(s.arrived, |s.cores|);
      var d :| d in CoreSet(|s.cores|) && d !in s.arrived;
      assert CoreOk(op, v, s, d);
    }
  }

  /** A core waits only for a message that is there to be taken, or for a core that has not made the same call yet. */
  lemma NobodyWaitsForNothing<T(!new)>(op: (T, T) -> T, v: (nat, nat) -> T, n: nat, steps: seq<Step<T>>, s: Sys<T>, c: nat)
    requires Commutes(op) && n >= 1 && Run(op, v, Init(n), steps, s) && c < |s.cores| && s.cores[c].waiting
    ensures Enabled(s, Read(c)) || (exists x :: Enabled(s, Result(c, x))) || (exists d :: Enabled(s, Collect(d)))
      || (exists d :: 0 <= d < |s.cores| &&
            (|s.cores[d].results| < |s.cores[c].results| || (!s.cores[d].waiting && |s.cores[d].results| == |s.cores[c].results|)))
  {
    InitInv(op, v, n);
    RunInv(op, v, Init(n), steps, s);
    WaitsForSomething(op, v, s, c);
  }

  // ---------- Everybody gets the result ----------

  /** The calls that core c has made. */
  function Calls<T>(x: Core<T>): nat {
    |x.results| + if x.waiting then 1 else 0
  }

  predicate AllCalled<T(==)>(s: Sys<T>, k: nat) {
    forall c :: 0 <= c < |s.cores| ==> Calls(s.cores[c]) == k
  }

  function WaitingCores<T>(cores: seq<Core<T>>): nat {
    if cores == [] then 0 else WaitingCores(cores[1..]) + if cores[0].waiting then 1 else 0
  }

  lemma {:induction false} WaitingUpdate<T>(cores: seq<Core<T>>, c: nat, x: Core<T>)
    requires c < |cores|
    ensures WaitingCores(cores[c := x]) + (if cores[c].waiting then 1 else 0) == WaitingCores(cores) + if x.waiting then 1 else 0
    decreases |cores|
  {
    if c > 0 {
      WaitingUpdate(cores[1..], c - 1, x);
      assert cores[c := x][1..] == cores[1..][c - 1 := x];
    } else {
      assert cores[c := x][1..] == cores[1..];
    }
  }

  predicate Delivers<T>(step: Step<T>) {
    !step.Call?
  }

  ghost predicate Nearer<T(!new)>(s: Sys<T>, s': Sys<T>) {
    || |s'.sent| < |s.sent|
    || (|s'.sent| == |s.sent| && |s'.replies| < |s.replies|)
    || (|s'.sent| == |s.sent| && |s'.replies| == |s.replies| && WaitingCores(s'.cores) < WaitingCores(s.cores))
  }

  lemma StepNearer<T(!new)>(op: (T, T) -> T, v: (nat, nat) -> T, s: Sys<T>, step: Step<T>, k: nat)
    requires Enabled(s, step) && Delivers(step) && AllCalled(s, k)
    ensures var s' := Apply(op, v, s, step); Nearer(s, s') && AllCalled(s', k) && |s'.cores| == |s.cores|
  {
    match step
    case Collect(c) =>
      hide ToAll, Collected;
      assert |s.sent - {c}| == |s.sent| - 1 by { assert (s.sent - {c}).Keys == s.sent.Keys - {c}; }
    case Result(c, value) =>
    case Read(c) => WaitingUpdate(s.cores, c, Apply(op, v, s, step).cores[c]);
  }

  lemma NextStep<T(!new)>(op: (T, T) -> T, v: (nat, nat) -> T, s: Sys<T>, k: nat, c: nat) returns (step: Step<T>)
    requires Inv(op, v, s) && AllCalled(s, k) && c < |s.cores| && s.cores[c].waiting
    ensures Enabled(s, step) && Delivers(step)
  {
    WaitsForSomething(op, v, s, c);
    assert forall d :: 0 <= d < |s.cores| ==> Calls(s.cores[d]) == Calls(s.cores[c]);
    hide Inv;
    if Enabled(s, Read(c)) {
      step := Read(c);
    } else if x :| Enabled(s, Result(c, x)) {
      step := Result(c, x);
    } else {
      var d :| Enabled(s, Collect(d));
      step := Collect(d);
    }
  }

  lemma RunCons<T(!new)>(op: (T, T) -> T, v: (nat, nat) -> T, s: Sys<T>, step: Step<T>, rest: seq<Step<T>>, s': Sys<T>)
    requires Enabled(s, step) && Run(op, v, Apply(op, v, s, step), rest, s')
    ensures Run(op, v, s, [step] + rest, s')
  {
    assert ([step] + rest)[1..] == rest;
  }

  lemma {:induction false} Onward<T(!new)>(op: (T, T) -> T, v: (nat, nat) -> T, s: Sys<T>, k: nat)
      returns (more: seq<Step<T>>, s': Sys<T>)
    requires Commutes(op) && Inv(op, v, s) && AllCalled(s, k)
    ensures Run(op, v, s, more, s') && (forall i :: 0 <= i < |more| ==> Delivers(more[i])) && Inv(op, v, s')
    ensures |s'.cores| == |s.cores| && AllCalled(s', k) && forall c :: 0 <= c < |s'.cores| ==> !s'.cores[c].waiting
    decreases |s.sent|, |s.replies|, WaitingCores(s.cores)
  {
    if c :| 0 <= c < |s.cores| && s.cores[c].waiting {
      var step := NextStep(op, v, s, k, c);
      StepNearer(op, v, s, step, k);
      StepInv(op, v, s, step);
      hide Inv, Enabled, Apply, Run, Commutes, AllCalled;
      var rest: seq<Step<T>>;
      rest, s' := Onward(op, v, Apply(op, v, s, step), k);
      hide Nearer;
      RunCons(op, v, s, step, rest, s');
      more := [step] + rest;
    } else {
      more, s' := [], s;
    }
  }

  /**
   When every core has made the same number of calls, delivering what is in flight brings
   every one of them back with its result.
   */
  lemma EverybodyGetsTheResult<T(!new)>(op: (T, T) -> T, v: (nat, nat) -> T, n: nat, steps: seq<Step<T>>, s: Sys<T>, k: nat)
      returns (more: seq<Step<T>>, s': Sys<T>)
    requires Commutes(op) && n >= 1 && Run(op, v, Init(n), steps, s) && AllCalled(s, k)
    ensures Run(op, v, s, more, s') && (forall i :: 0 <= i < |more| ==> Delivers(more[i])) && |s'.cores| == |s.cores|
    ensures forall c :: 0 <= c < |s'.cores| ==>
      !s'.cores[c].waiting && |s'.cores[c].results| == k && |s'.cores| >= 1
      && forall j :: 0 <= j < k ==> s'.cores[c].results[j] == Reduced(op, v, |s'.cores|, j)
  {
    InitInv(op, v, n);
    RunInv(op, v, Init(n), steps, s);
    more, s' := Onward(op, v, s, k);
    hide Run, Commutes;
    forall c | 0 <= c < |s'.cores|
      ensures !s'.cores[c].waiting && |s'.cores[c].results| == k && |s'.cores| >= 1
        && forall j :: 0 <= j < k ==> s'.cores[c].results[j] == Reduced(op, v, |s'.cores|, j)
    {
      assert CoreOk(op, v, s', c) && Calls(s'.cores[c]) == k;
    }
  }
}
