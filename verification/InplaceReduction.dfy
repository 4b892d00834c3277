/**
 allreduce_inplace: every core sends its array to the home core in chunks, the home core
 reduces them into its own array in whatever order they arrive, and then sends the
 totals back in chunks.  Completion is by counting messages.
 */
module InplaceReduction {
  import opened Basics
  import opened Bits
  import opened Folds

  const HOME_CORE: nat := 0

  // ---------- Chunks ----------

  datatype Chunk = Chunk(start: nat, len: nat)

  /** The number of messages that a core is enrolled for. */
  function NumMessages(nelem: nat, per: nat): nat
    requires per >= 1
  {
    nelem / per + if nelem % per != 0 then 1 else 0
  }

  /** The j-th message of the send loop. */
  function ChunkAt(nelem: nat, per: nat, j: nat): Chunk
    requires j * per <= nelem
  {
    Chunk(j * per, if per < nelem - j * per then per else nelem - j * per)
  }

  /** The message that element i travels in. */
  function ChunkIndex(i: nat, per: nat): nat
    requires per >= 1
  {
    i / per
  }

  /** Element i is in the message of its index, and in no other. */
  lemma ChunkOf(nelem: nat, per: nat, j: nat, i: nat)
    requires per >= 1 && j < NumMessages(nelem, per) && i < nelem
    ensures j * per < nelem
    ensures ChunkAt(nelem, per, j).start <= i < ChunkAt(nelem, per, j).start + ChunkAt(nelem, per, j).len <==> ChunkIndex(i, per) == j
  {
    MessageStart(nelem, per, j);
    var q, r := i / per, i % per;
    assert i == q * per + r;
    if q < j { MulLess(q, j, per); } else if q > j { MulLess(j, q, per); }
  }

  lemma MulLess(a: int, b: int, p: int)
    requires a < b && p >= 0
    ensures a * p + p <= b * p
  {
    calc {
      b * p;
      (b - a - 1) * p + (a + 1) * p;
      >= (a + 1) * p;
      a * p + p;
    }
  }

  /** The j-th message starts within the array exactly when j is less than the number of messages. */
  lemma MessageStart(nelem: nat, per: nat, j: nat)
    requires per >= 1
    ensures j < NumMessages(nelem, per) <==> j * per < nelem
  {
    var q, r := nelem / per, nelem % per;
    assert nelem == q * per + r;
    if j < q { MulLess(j, q, per); } else if j > q { MulLess(q, j, per); }
  }

  lemma ElementChunk(nelem: nat, per: nat, i: nat)
    requires per >= 1 && i < nelem
    ensures ChunkIndex(i, per) < NumMessages(nelem, per)
  {
    var q := i / per;
    assert q * per <= i;
    MessageStart(nelem, per, q);
  }

  /** The send loop: it sends exactly the messages that were enrolled. */
  method SendChunks(nelem: nat, per: nat) returns (sent: seq<Chunk>)
    requires per >= 1
    ensures |sent| == NumMessages(nelem, per)
    ensures forall j :: 0 <= j < |sent| ==> j * per <= nelem && sent[j] == ChunkAt(nelem, per, j)
  {
    sent := [];
    var k := 0;
    MessageStart(nelem, per, 0);
    while k < nelem
      invariant k == |sent| * per && |sent| <= NumMessages(nelem, per)
      invariant forall j :: 0 <= j < |sent| ==> j * per <= nelem && sent[j] == ChunkAt(nelem, per, j)
      decreases nelem - k
    {
      hide NumMessages;
      MessageStart(nelem, per, |sent|);
      var len := if per < nelem - k then per else nelem - k;
      assert Chunk(k, len) == ChunkAt(nelem, per, |sent|);
      Rows(|sent| + 1, per);
      hide ChunkAt;
      sent := sent + [Chunk(k, len)];
      k := k + per;
    }
    MessageStart(nelem, per, |sent|);
  }

  // ---------- The handlers ----------

  /** The home core's array after a contribution has been reduced into it. */
  function ReducedInto<T>(op: (T, T) -> T, total: seq<T>, start: nat, payload: seq<T>): seq<T> {
    seq(|total|, i requires 0 <= i < |total| =>
      if start <= i < start + |payload| then op(total[i], payload[i - start]) else total[i])
  }

  /** A core's array after totals have been copied into it. */
  function CopiedInto<T>(mine: seq<T>, start: nat, payload: seq<T>): seq<T> {
    seq(|mine|, i requires 0 <= i < |mine| => if start <= i < start + |payload| then payload[i - start] else mine[i])
  }

  method Reduce<T>(op: (T, T) -> T, total: array<T>, start: nat, payload: seq<T>)
    requires start + |payload| <= total.Length
    modifies total
    ensures total[..] == ReducedInto(op, old(total[..]), start, payload)
  {
    var i := 0;
    while i < |payload|
      invariant 0 <= i <= |payload|
      invariant forall j :: 0 <= j < total.Length ==>
        total[j] == if start <= j < start + i then op(old(total[j]), payload[j - start]) else old(total[j])
    {
      total[start + i] := op(total[start + i], payload[i]);
      i := i + 1;
    }
  }

  method CopyTotals<T>(mine: array<T>, start: nat, payload: seq<T>)
    requires start + |payload| <= mine.Length
    modifies mine
    ensures mine[..] == CopiedInto(old(mine[..]), start, payload)
  {
    var i := 0;
    while i < |payload|
      invariant 0 <= i <= |payload|
      invariant forall j :: 0 <= j < mine.Length ==>
        mine[j] == if start <= j < start + i then payload[j - start] else old(mine[j])
    {
      mine[start + i] := payload[i];
      i := i + 1;
    }
  }

  // ---------- All cores and messages ----------

  datatype Params<!T> = Params(op: (T, T) -> T, v: (nat, nat) -> T, n: nat, nelem: nat, per: nat)

  /**
   The home core's array and its count of missing messages, the cores whose j-th message
   is in it, whether the home core has sent the totals, and on the other cores their
   arrays, their counts, and the cores that have got the j-th totals.
   */
  datatype Sys<T> = Sys(total: seq<T>, missing: int, applied: seq<set<nat>>, told: bool,
                        arrays: seq<seq<T>>, counts: seq<int>, returned: seq<set<nat>>)

  datatype Step = Contribute(c: nat, j: nat) | Tell | Return(c: nat, j: nat)

  ghost predicate Wf<T(!new)>(p: Params<T>) {
    p.n >= 1 && p.per >= 1 && Commutes(p.op)
  }

  function M<T>(p: Params<T>): nat
    requires p.per >= 1
  {
    NumMessages(p.nelem, p.per)
  }

  predicate Shape<T>(p: Params<T>, s: Sys<T>) {
    && p.per >= 1 && |s.total| == p.nelem && |s.applied| == M(p) && |s.returned| == M(p)
    && |s.arrays| == p.n && |s.counts| == p.n && forall c :: 0 <= c < p.n ==> |s.arrays[c]| == p.nelem
  }

  ghost predicate Init<T(!new)>(p: Params<T>, s: Sys<T>) {
    && Shape(p, s) && !s.told && s.missing == M(p) * (p.n - 1)
    && (forall i :: 0 <= i < p.nelem ==> s.total[i] == p.v(HOME_CORE, i))
    && (forall j :: 0 <= j < M(p) ==> s.applied[j] == {HOME_CORE} && s.returned[j] == {})
    && (forall c, i :: 0 <= c < p.n && 0 <= i < p.nelem ==> s.arrays[c][i] == p.v(c, i))
    && (forall c :: 0 <= c < p.n ==> s.counts[c] == M(p))
  }

  predicate Enabled<T>(p: Params<T>, s: Sys<T>, step: Step) {
    && Shape(p, s)
    && match step
       case Contribute(c, j) => c != HOME_CORE && c < p.n && j < M(p) && c !in s.applied[j]
       case Tell => s.missing == 0 && !s.told
       case Return(c, j) => s.told && c != HOME_CORE && c < p.n && j < M(p) && c !in s.returned[j]
  }

  /** What core c sends in message j. */
  function Payload<T>(p: Params<T>, c: nat, ch: Chunk): seq<T> {
    seq(ch.len, i requires i >= 0 => p.v(c, ch.start + i))
  }

  function Apply<T>(p: Params<T>, s: Sys<T>, step: Step): Sys<T>
    requires Enabled(p, s, step)
  {
    match step
    case Contribute(c, j) =>
      MessageStart(p.nelem, p.per, j);
      var ch := ChunkAt(p.nelem, p.per, j);
      s.(total := ReducedInto(p.op, s.total, ch.start, Payload(p, c, ch)), missing := s.missing - 1,
         applied := s.applied[j := s.applied[j] + {c}])
    case Tell => s.(told := true)
    case Return(c, j) =>
      MessageStart(p.nelem, p.per, j);
      var ch := ChunkAt(p.nelem, p.per, j);
      s.(arrays := s.arrays[c := CopiedInto(s.arrays[c], ch.start, s.total[ch.start..ch.start + ch.len])],
         counts := s.counts[c := s.counts[c] - 1], returned := s.returned[j := s.returned[j] + {c}])
  }

  ghost predicate Run<T(!new)>(p: Params<T>, s: Sys<T>, steps: seq<Step>, s': Sys<T>)
    decreases |steps|
  {
    if steps == [] then s' == s
    else Enabled(p, s, steps[0]) && Run(p, Apply(p, s, steps[0]), steps[1..], s')
  }

  // ---------- The invariant ----------

  /** How many messages have been reduced. */
  function Contributed(applied: seq<set<nat>>): int {
    if applied == [] then 0 else |applied[0]| - 1 + Contributed(applied[1..])
  }

  lemma {:induction false} ContributedUpdate(applied: seq<set<nat>>, j: nat, c: nat)
    requires j < |applied| && c !in applied[j]
    ensures Contributed(applied[j := applied[j] + {c}]) == Contributed(applied) + 1
    decreases |applied|
  {
    if j > 0 {
      ContributedUpdate(applied[1..], j - 1, c);
      assert applied[j := applied[j] + {c}][1..] == applied[1..][j - 1 := applied[j] + {c}];
    } else {
      assert applied[j := applied[j] + {c}][1..] == applied[1..];
    }
  }

  /** All messages have been reduced exactly when every core is in every chunk. */
  lemma {:induction false} ContributedAll(applied: seq<set<nat>>, n: nat)
    requires n >= 1 && forall j :: 0 <= j < |applied| ==> applied[j] <= CoreSet(n)
    ensures Contributed(applied) <= |applied| * (n - 1)
    ensures Contributed(applied) == |applied| * (n - 1) ==> forall j :: 0 <= j < |applied| ==> applied[j] == CoreSet(n)
    decreases |applied|
  {
    hide CoreSet;
    if applied != [] {
      FullSet(applied[0], n);
      ContributedAll(applied[1..], n);
      Rows(|applied|, n - 1);
      assert applied == [applied[0]] + applied[1..];
    }
  }

  lemma Rows(k: nat, m: nat)
    requires k >= 1
    ensures k * m == (k - 1) * m + m
  {
  }

  lemma {:induction false} ContributedNone(applied: seq<set<nat>>)
    requires forall j :: 0 <= j < |applied| ==> |applied[j]| == 1
    ensures Contributed(applied) == 0
    decreases |applied|
  {
    if applied != [] { ContributedNone(applied[1..]); }
  }

  /** The totals that c has got. */
  function Got(returned: seq<set<nat>>, c: nat): nat {
    if returned == [] then 0 else Got(returned[1..], c) + if c in returned[0] then 1 else 0
  }

  lemma {:induction false} GotUpdate(returned: seq<set<nat>>, j: nat, c: nat, d: nat)
    requires j < |returned| && c !in returned[j]
    ensures Got(returned[j := returned[j] + {c}], d) == Got(returned, d) + if c == d then 1 else 0
    decreases |returned|
  {
    if j > 0 {
      GotUpdate(returned[1..], j - 1, c, d);
      assert returned[j := returned[j] + {c}][1..] == returned[1..][j - 1 := returned[j] + {c}];
    } else {
      assert returned[j := returned[j] + {c}][1..] == returned[1..];
    }
  }

  lemma {:induction false} GotAll(returned: seq<set<nat>>, c: nat)
    ensures Got(returned, c) <= |returned|
    ensures Got(returned, c) == |returned| ==> forall j :: 0 <= j < |returned| ==> c in returned[j]
    decreases |returned|
  {
    if returned != [] {
      GotAll(returned[1..], c);
      assert returned == [returned[0]] + returned[1..];
    }
  }

  lemma {:induction false} GotNone(returned: seq<set<nat>>, c: nat)
    requires forall j :: 0 <= j < |returned| ==> c !in returned[j]
    ensures Got(returned, c) == 0
    decreases |returned|
  {
    if returned != [] { GotNone(returned[1..], c); }
  }

  ghost predicate AppliedOk<T(!new)>(p: Params<T>, s: Sys<T>) {
    Shape(p, s) && forall j :: 0 <= j < |s.applied| ==> HOME_CORE in s.applied[j] && s.applied[j] <= CoreSet(p.n)
  }

  /** Element i of the home core's array is the reduction over the cores whose message for it is in. */
  ghost predicate TotalOk<T(!new)>(p: Params<T>, s: Sys<T>, i: nat)
    requires AppliedOk(p, s)
  {
    i < p.nelem ==>
      (ElementChunk(p.nelem, p.per, i);
       s.total[i] == Fold(p.op, p.v, i, s.applied[ChunkIndex(i, p.per)]))
  }

  ghost predicate ArrayOk<T(!new)>(p: Params<T>, s: Sys<T>, c: nat, i: nat)
    requires Shape(p, s)
  {
    0 < c < p.n && i < p.nelem ==>
      (ElementChunk(p.nelem, p.per, i);
       s.arrays[c][i] == if c in s.returned[ChunkIndex(i, p.per)] then s.total[i] else p.v(c, i))
  }

  ghost predicate CountsOk<T(!new)>(p: Params<T>, s: Sys<T>)
    requires Shape(p, s)
  {
    && s.missing == M(p) * (p.n - 1) - Contributed(s.applied)
    && (s.told ==> s.missing == 0)
    && (forall j :: 0 <= j < M(p) && s.returned[j] != {} ==> s.told)
    && (forall c :: 0 < c < p.n ==> s.counts[c] == M(p) - Got(s.returned, c))
  }

  ghost predicate Inv<T(!new)>(p: Params<T>, s: Sys<T>) {
    && AppliedOk(p, s) && CountsOk(p, s)
    && (forall i :: TotalOk(p, s, i)) && (forall c, i :: ArrayOk(p, s, c, i))
  }

  lemma InitInv<T(!new)>(p: Params<T>, s: Sys<T>)
    requires Wf(p) && Init(p, s)
    ensures Inv(p, s)
  {
    hide NumMessages, ChunkIndex;
    ContributedNone(s.applied);
    forall c | 0 < c < p.n ensures Got(s.returned, c) == 0 { GotNone(s.returned, c); }
    forall i: nat ensures TotalOk(p, s, i) {
      if i < p.nelem {
        ElementChunk(p.nelem, p.per, i);
        FoldOne(p.op, p.v, i, HOME_CORE);
      }
    }
    forall c: nat, i: nat ensures ArrayOk(p, s, c, i) {
      if i < p.nelem { ElementChunk(p.nelem, p.per, i); }
    }
  }

  /** What a contribution does to one element. */
  lemma ContributeElement<T>(p: Params<T>, s: Sys<T>, c: nat, j: nat, i: nat)
    requires Enabled(p, s, Contribute(c, j)) && i < p.nelem
    ensures var s' := Apply(p, s, Contribute(c, j));
      && |s'.total| == p.nelem
      && s'.total[i] == if ChunkIndex(i, p.per) == j then p.op(s.total[i], p.v(c, i)) else s.total[i]
  {
    hide NumMessages, ChunkIndex;
    ElementChunk(p.nelem, p.per, i);
    ChunkOf(p.nelem, p.per, j, i);
  }

  lemma ContributeTotal<T(!new)>(p: Params<T>, s: Sys<T>, c: nat, j: nat, i: nat)
    requires Wf(p) && Inv(p, s) && Enabled(p, s, Contribute(c, j)) && AppliedOk(p, Apply(p, s, Contribute(c, j)))
    ensures TotalOk(p, Apply(p, s, Contribute(c, j)), i)
  {
    hide NumMessages, ChunkIndex;
    if i < p.nelem {
      assert TotalOk(p, s, i);
      ElementChunk(p.nelem, p.per, i);
      ContributeElement(p, s, c, j, i);
      hide ReducedInto, Payload, ChunkAt, ArrayOk, CountsOk;
      if ChunkIndex(i, p.per) == j {
        FoldWith(p.op, p.v, i, s.applied[j], c);
      }
    }
  }

  lemma ContributeInv<T(!new)>(p: Params<T>, s: Sys<T>, c: nat, j: nat)
    requires Wf(p) && Inv(p, s) && Enabled(p, s, Contribute(c, j))
    ensures Inv(p, Apply(p, s, Contribute(c, j)))
  {
    hide NumMessages, ChunkIndex;
    var s' := Apply(p, s, Contribute(c, j));
    ContributedUpdate(s.applied, j, c);
    ContributedAll(s'.applied, p.n);
    assert !s.told;
    assert AppliedOk(p, s');
    forall i: nat ensures TotalOk(p, s', i) { ContributeTotal(p, s, c, j, i); }
    forall d: nat, i: nat ensures ArrayOk(p, s', d, i) {
      assert ArrayOk(p, s, d, i);
      if i < p.nelem { ElementChunk(p.nelem, p.per, i); }
    }
  }

  lemma TellInv<T(!new)>(p: Params<T>, s: Sys<T>)
    requires Wf(p) && Inv(p, s) && Enabled(p, s, Tell)
    ensures Inv(p, Apply(p, s, Tell))
  {
    hide NumMessages, ChunkIndex;
    var s' := Apply(p, s, Tell);
    forall i: nat ensures TotalOk(p, s', i) { assert TotalOk(p, s, i); }
    forall c: nat, i: nat ensures ArrayOk(p, s', c, i) { assert ArrayOk(p, s, c, i); }
  }

  lemma ReturnArray<T(!new)>(p: Params<T>, s: Sys<T>, c: nat, j: nat, d: nat, i: nat)
    requires Wf(p) && Inv(p, s) && Enabled(p, s, Return(c, j)) && Shape(p, Apply(p, s, Return(c, j)))
    ensures ArrayOk(p, Apply(p, s, Return(c, j)), d, i)
  {
    hide NumMessages, ChunkIndex;
    assert ArrayOk(p, s, d, i);
    if i < p.nelem {
      ElementChunk(p.nelem, p.per, i);
      ChunkOf(p.nelem, p.per, j, i);
    }
  }

  lemma ReturnInv<T(!new)>(p: Params<T>, s: Sys<T>, c: nat, j: nat)
    requires Wf(p) && Inv(p, s) && Enabled(p, s, Return(c, j))
    ensures Inv(p, Apply(p, s, Return(c, j)))
  {
    hide NumMessages, ChunkIndex;
    var s' := Apply(p, s, Return(c, j));
    assert Shape(p, s');
    forall d | 0 < d < p.n ensures s'.counts[d] == M(p) - Got(s'.returned, d) { GotUpdate(s.returned, j, c, d); }
    forall i: nat ensures TotalOk(p, s', i) { assert TotalOk(p, s, i); }
    forall d: nat, i: nat ensures ArrayOk(p, s', d, i) { ReturnArray(p, s, c, j, d, i); }
  }

  lemma {:induction false} RunInv<T(!new)>(p: Params<T>, s: Sys<T>, steps: seq<Step>, s': Sys<T>)
    requires Wf(p) && Inv(p, s) && Run(p, s, steps, s')
    ensures Inv(p, s')
    decreases |steps|
  {
    hide Inv, Apply, Enabled, Wf;
    if steps != [] {
      match steps[0] {
        case Contribute(c, j) => ContributeInv(p, s, c, j);
        case Tell => TellInv(p, s);
        case Return(c, j) => ReturnInv(p, s, c, j);
      }
      RunInv(p, Apply(p, s, steps[0]), steps[1..], s');
    }
  }

  lemma HomeIsReduced<T(!new)>(p: Params<T>, s: Sys<T>, i: nat)
    requires Wf(p) && Inv(p, s) && s.missing == 0 && i < p.nelem
    ensures s.total[i] == Fold(p.op, p.v, i, CoreSet(p.n))
  {
    hide NumMessages, ChunkIndex;
    ElementChunk(p.nelem, p.per, i);
    ContributedAll(s.applied, p.n);
    assert TotalOk(p, s, i);
  }

  lemma OtherIsReduced<T(!new)>(p: Params<T>, s: Sys<T>, c: nat, i: nat)
    requires Wf(p) && Inv(p, s) && 0 < c < p.n && s.counts[c] == 0 && i < p.nelem
    ensures s.arrays[c][i] == Fold(p.op, p.v, i, CoreSet(p.n))
  {
    hide NumMessages, ChunkIndex;
    ElementChunk(p.nelem, p.per, i);
    GotAll(s.returned, c);
    assert ArrayOk(p, s, c, i);
    assert c in s.returned[ChunkIndex(i, p.per)];
    HomeIsReduced(p, s, i);
  }

  /**
   Whatever order the messages arrive in: when the home core's count reaches 0 its array
   is the elementwise reduction over all cores, and when another core's count reaches 0
   so is that core's array.
   */
  lemma EveryArrayIsReduced<T(!new)>(p: Params<T>, s: Sys<T>, steps: seq<Step>, s': Sys<T>, i: nat)
    requires Wf(p) && Init(p, s) && Run(p, s, steps, s') && i < p.nelem
    ensures Shape(p, s')
    ensures s'.missing == 0 ==> s'.total[i] == Fold(p.op, p.v, i, CoreSet(p.n))
    ensures forall c :: 0 < c < p.n && s'.counts[c] == 0 ==> s'.arrays[c][i] == Fold(p.op, p.v, i, CoreSet(p.n))
  {
    InitInv(p, s);
    RunInv(p, s, steps, s');
    if s'.missing == 0 { HomeIsReduced(p, s', i); }
    forall c | 0 < c < p.n && s'.counts[c] == 0 ensures s'.arrays[c][i] == Fold(p.op, p.v, i, CoreSet(p.n)) {
      OtherIsReduced(p, s', c, i);
    }
  }

  lemma {:induction false} ContributedFull(applied: seq<set<nat>>, n: nat)
    requires n >= 1 && forall j :: 0 <= j < |applied| ==> applied[j] == CoreSet(n)
    ensures Contributed(applied) == |applied| * (n - 1)
    decreases |applied|
  {
    if applied != [] {
      ContributedFull(applied[1..], n);
      Rows(|applied|, n - 1);
    }
  }

  lemma {:induction false} GotFull(returned: seq<set<nat>>, c: nat)
    requires forall j :: 0 <= j < |returned| ==> c in returned[j]
    ensures Got(returned, c) == |returned|
    decreases |returned|
  {
    if returned != [] { GotFull(returned[1..], c); }
  }

  /** While the home core misses a message, some core's is still to be reduced. */
  lemma MissingContribution<T(!new)>(p: Params<T>, s: Sys<T>) returns (step: Step)
    requires Wf(p) && AppliedOk(p, s) && CountsOk(p, s) && s.missing != 0
    ensures Enabled(p, s, step)
  {
    hide NumMessages;
    if forall j :: 0 <= j < |s.applied| ==> s.applied[j] == CoreSet(p.n) {
      ContributedFull(s.applied, p.n);
      assert false;
    }
    var j :| 0 <= j < |s.applied| && s.applied[j] != CoreSet(p.n);
    var c :| c in CoreSet(p.n) && c !in s.applied[j];
    step := Contribute(c, j);
  }

  lemma MissingReturn<T(!new)>(p: Params<T>, s: Sys<T>, c: nat) returns (step: Step)
    requires Wf(p) && Shape(p, s) && CountsOk(p, s) && s.told && 0 < c < p.n && s.counts[c] != 0
    ensures Enabled(p, s, step)
  {
    hide NumMessages;
    if forall j :: 0 <= j < |s.returned| ==> c in s.returned[j] {
      GotFull(s.returned, c);
      assert false;
    }
    var j :| 0 <= j < |s.returned| && c !in s.returned[j];
    step := Return(c, j);
  }

  /** Some core's count has not reached 0. */
  predicate Unfinished<T>(p: Params<T>, s: Sys<T>) {
    s.missing != 0 || exists c :: 0 < c < p.n && c < |s.counts| && s.counts[c] != 0
  }

  lemma NextStep<T(!new)>(p: Params<T>, s: Sys<T>) returns (step: Step)
    requires Wf(p) && Inv(p, s) && Unfinished(p, s)
    ensures Enabled(p, s, step)
  {
    hide Wf, NumMessages, TotalOk, ArrayOk;
    if s.missing != 0 {
      step := MissingContribution(p, s);
    } else if !s.told {
      step := Tell;
    } else {
      var c :| 0 < c < p.n && c < |s.counts| && s.counts[c] != 0;
      step := MissingReturn(p, s, c);
    }
  }

  /** A core waits only while a message is on its way, or the home core is about to send the totals. */
  lemma NobodyWaitsForNothing<T(!new)>(p: Params<T>, s: Sys<T>, steps: seq<Step>, s': Sys<T>)
    requires Wf(p) && Init(p, s) && Run(p, s, steps, s')
    requires Unfinished(p, s')
    ensures exists step :: Enabled(p, s', step)
  {
    InitInv(p, s);
    RunInv(p, s, steps, s');
    hide Run, Init;
    var step := NextStep(p, s');
  }

  // ---------- Every core gets the totals ----------

  /** The totals that the cores 1 .. k-1 have yet to get. */
  function Ungot(returned: seq<set<nat>>, k: nat): (r: int)
    decreases k
  {
    if k <= 1 then 0 else |returned| - Got(returned, k - 1) + Ungot(returned, k - 1)
  }

  lemma {:induction false} UngotUpdate(returned: seq<set<nat>>, j: nat, c: nat, k: nat)
    requires j < |returned| && c !in returned[j]
    ensures Ungot(returned[j := returned[j] + {c}], k) == Ungot(returned, k) - if 1 <= c < k then 1 else 0
    decreases k
  {
    if k > 1 {
      UngotUpdate(returned, j, c, k - 1);
      GotUpdate(returned, j, c, k - 1);
    }
  }

  lemma {:induction false} UngotNat(returned: seq<set<nat>>, k: nat)
    ensures Ungot(returned, k) >= 0
    decreases k
  {
    if k > 1 {
      UngotNat(returned, k - 1);
      GotAll(returned, k - 1);
    }
  }

  ghost function Left<T(!new)>(p: Params<T>, s: Sys<T>): nat
    requires Wf(p) && AppliedOk(p, s) && CountsOk(p, s)
  {
    ContributedAll(s.applied, p.n);
    UngotNat(s.returned, p.n);
    s.missing + (if s.told then 0 else 1) + Ungot(s.returned, p.n)
  }

  lemma StepLeft<T(!new)>(p: Params<T>, s: Sys<T>, step: Step)
    requires Wf(p) && Inv(p, s) && Enabled(p, s, step)
    ensures Inv(p, Apply(p, s, step)) && Left(p, Apply(p, s, step)) < Left(p, s)
  {
    match step {
      case Contribute(c, j) => ContributeInv(p, s, c, j);
      case Tell => TellInv(p, s);
      case Return(c, j) => ReturnInv(p, s, c, j); UngotUpdate(s.returned, j, c, p.n);
    }
    hide Inv, Wf, NumMessages;
  }

  lemma RunCons<T(!new)>(p: Params<T>, s: Sys<T>, step: Step, rest: seq<Step>, s': Sys<T>)
    requires Enabled(p, s, step) && Run(p, Apply(p, s, step), rest, s')
    ensures Run(p, s, [step] + rest, s')
  {
    assert ([step] + rest)[1..] == rest;
  }

  lemma {:induction false} Onward<T(!new)>(p: Params<T>, s: Sys<T>) returns (more: seq<Step>, s': Sys<T>)
    requires Wf(p) && Inv(p, s)
    ensures Run(p, s, more, s') && Inv(p, s') && !Unfinished(p, s')
    decreases Left(p, s)
  {
    if Unfinished(p, s) {
      var step := NextStep(p, s);
      StepLeft(p, s, step);
      hide Inv, Wf, Enabled, Apply, Run, Unfinished;
      var rest: seq<Step>;
      rest, s' := Onward(p, Apply(p, s, step));
      RunCons(p, s, step, rest, s');
      more := [step] + rest;
    } else {
      more, s' := [], s;
    }
  }

  /** From every state of every run every core's array can be brought to the elementwise reduction over all cores. */
  lemma EverybodyGetsTheTotals<T(!new)>(p: Params<T>, s: Sys<T>, steps: seq<Step>, s1: Sys<T>) returns (more: seq<Step>, s2: Sys<T>)
    requires Wf(p) && Init(p, s) && Run(p, s, steps, s1)
    ensures Run(p, s1, more, s2) && Shape(p, s2)
    ensures forall i :: 0 <= i < p.nelem ==> s2.total[i] == Fold(p.op, p.v, i, CoreSet(p.n))
    ensures forall c, i :: 0 < c < p.n && 0 <= i < p.nelem ==> s2.arrays[c][i] == Fold(p.op, p.v, i, CoreSet(p.n))
  {
    InitInv(p, s);
    RunInv(p, s, steps, s1);
    more, s2 := Onward(p, s1);
    hide Run, Init, Wf, Fold;
    forall i | 0 <= i < p.nelem ensures s2.total[i] == Fold(p.op, p.v, i, CoreSet(p.n)) { HomeIsReduced(p, s2, i); }
    forall c, i | 0 < c < p.n && 0 <= i < p.nelem ensures s2.arrays[c][i] == Fold(p.op, p.v, i, CoreSet(p.n)) {
      OtherIsReduced(p, s2, c, i);
    }
  }
}
