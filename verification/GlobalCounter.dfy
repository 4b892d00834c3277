/**
 A global counter: one combiner per core, all syncing to the master's count.  In every
 interleaving the count is the initial value plus the increments of the syncs that
 took effect; once all calls have returned, plus all increments on all cores.
 */
module GlobalCounter {
  import opened Basics
  import opened FlatCombiner
  import opened FlatProofs
  import opened Sums

  datatype Counter = Counter(count: int, cores: seq<Core>)

  /** A step on one core; the sync of a flusher adds its delta to the master's count. */
  datatype Event = Event(core: nat, step: Step)

  function Initial(cores: nat, count: int): Counter {
    Counter(count, seq(cores, _ => InitCore()))
  }

  predicate Possible(g: Counter, e: Event) {
    e.core < |g.cores| && Enabled(g.cores[e.core], e.step)
  }

  function Happens(g: Counter, e: Event): Counter
    requires Possible(g, e)
  {
    var k := g.cores[e.core];
    var d := if e.step.Serve? then k.status[e.step.t].d else 0;
    Counter(g.count + d, g.cores[e.core := Apply(k, e.step)])
  }

  ghost predicate History(g: Counter, events: seq<Event>, g': Counter)
    decreases |events|
  {
    if events == [] then g' == g
    else Possible(g, events[0]) && History(Happens(g, events[0]), events[1..], g')
  }

  function Added(cores: seq<Core>): int {
    if cores == [] then 0 else cores[0].added + Added(cores[1..])
  }

  lemma {:induction false} AddedUpdate(cores: seq<Core>, c: nat, k: Core)
    requires c < |cores|
    ensures Added(cores[c := k]) == Added(cores) - cores[c].added + k.added
    decreases |cores|
  {
    if c > 0 {
      AddedUpdate(cores[1..], c - 1, k);
      assert cores[c := k][1..] == cores[1..][c - 1 := k];
    } else {
      assert cores[c := k][1..] == cores[1..];
    }
  }

  ghost predicate Good(g: Counter, initial: int) {
    && (forall c :: 0 <= c < |g.cores| ==> Inv(g.cores[c]))
    && g.count == initial + Added(g.cores)
  }

  lemma {:induction false} InitialAdded(n: nat)
    ensures Added(seq(n, _ => InitCore())) == 0
  {
    if n > 0 {
      InitialAdded(n - 1);
      var cores: seq<Core>, rest: seq<Core> := seq(n, _ => InitCore()), seq(n - 1, _ => InitCore());
      assert cores[1..] == rest;
    }
  }

  lemma AppliedAdds(k: Core, step: Step)
    requires Enabled(k, step)
    ensures Apply(k, step).added == k.added + if step.Serve? then k.status[step.t].d else 0
  {
  }

  lemma HappensGood(g: Counter, e: Event, initial: int)
    requires Good(g, initial) && Possible(g, e)
    ensures Good(Happens(g, e), initial)
  {
    hide Inv, Apply;
    StepInv(g.cores[e.core], e.step);
    AppliedAdds(g.cores[e.core], e.step);
    AddedUpdate(g.cores, e.core, Apply(g.cores[e.core], e.step));
  }

  lemma {:induction false} HistoryGood(g: Counter, events: seq<Event>, g': Counter, initial: int)
    requires Good(g, initial) && History(g, events, g')
    ensures Good(g', initial)
    decreases |events|
  {
    hide Good, Happens, Possible;
    if events != [] {
      HappensGood(g, events[0], initial);
      HistoryGood(Happens(g, events[0]), events[1..], g', initial);
    }
  }

  lemma ReachedGood(n: nat, initial: int, events: seq<Event>, g: Counter)
    requires History(Initial(n, initial), events, g)
    ensures Good(g, initial)
  {
    InitInv();
    InitialAdded(n);
    HistoryGood(Initial(n, initial), events, g, initial);
  }

  /** All increments asked for on the first cores. */
  ghost function Asked(cores: seq<Core>): int {
    if cores == [] then 0 else SumOver(cores[0].arg, cores[0].arg.Keys) + Asked(cores[1..])
  }

  predicate AllReturned(k: Core) {
    forall t :: t in k.status ==> k.status[t] == Returned
  }

  lemma CoreAdded(k: Core)
    requires Inv(k) && AllReturned(k)
    ensures k.added == SumOver(k.arg, k.arg.Keys)
  {
    forall t | t in k.status ensures t in Synced(k) { assert Where(k, t); }
    assert Synced(k) == k.arg.Keys;
  }

  lemma {:induction false} AddedAsked(cores: seq<Core>)
    requires forall c :: 0 <= c < |cores| ==> Inv(cores[c]) && AllReturned(cores[c])
    ensures Added(cores) == Asked(cores)
    decreases |cores|
  {
    hide Inv, AllReturned;
    if cores != [] {
      CoreAdded(cores[0]);
      AddedAsked(cores[1..]);
    }
  }

  /** When no call is under way on any core, the count is the initial value plus all increments. */
  lemma CounterIsSum(n: nat, initial: int, events: seq<Event>, g: Counter)
    requires History(Initial(n, initial), events, g)
    requires forall c :: 0 <= c < |g.cores| ==> AllReturned(g.cores[c])
    ensures g.count == initial + Asked(g.cores)
  {
    ReachedGood(n, initial, events, g);
    AddedAsked(g.cores);
  }

  /** At any time, the increment of a returned call is in the count: its core's part is the sum of its synced operations. */
  lemma ReturnedIsCounted(n: nat, initial: int, events: seq<Event>, g: Counter, c: nat, t: Task)
    requires History(Initial(n, initial), events, g) && c < |g.cores|
    requires t in g.cores[c].status && g.cores[c].status[t] == Returned
    ensures g.count == initial + Added(g.cores)
    ensures var k := g.cores[c];
      Synced(k) <= k.arg.Keys && k.added == SumOver(k.arg, Synced(k)) && t in Synced(k)
  {
    ReachedGood(n, initial, events, g);
    assert Where(g.cores[c], t);
  }
}
