/** The visits that a localized forall owes: by core, by part of a core's range, and altogether. */
module ForallShares {
  import opened Addressing
  import opened ParallelLoop

  datatype Loop = Loop(m: Machine, base: nat, nelems: nat, size: nat, threshold: nat, flag: nat)

  ghost predicate Allowed(p: Loop) {
    && Wf(p.m) && ElemSize(p.size) && p.base % p.size == 0 && 0 < p.nelems < LIMIT_48
    && (p.threshold >= 1 || p.flag >= 1)
  }

  /** The number of cores that hold elements. */
  function Fanout(p: Loop): nat
    requires Wf(p.m) && p.nelems > 0 && p.size >= 1
  {
    SpannedPositive(p.base, p.nelems, p.size);
    Min(Spanned(p.base, p.nelems, p.size), p.m.cores)
  }

  /** The visits of iters local elements of core c, from the start-th on. */
  function Part(p: Loop, c: nat, start: nat, iters: nat): multiset<Visit>
    requires Allowed(p)
  {
    FirstInChunk(p, c, start);
    multiset(LocalVisits(p.m, p.base, p.size, c, Localize(p.m, p.base, p.size, c) + start * p.size, iters))
  }

  lemma FirstInChunk(p: Loop, c: nat, start: nat)
    requires Allowed(p)
    ensures p.size >= 1 && Localize(p.m, p.base, p.size, c) + start * p.size >= p.m.chunkBase
  {
    LocalizeInChunk(p.m, p.base, p.size, c);
    hide Localize;
    MulMonotone(0, start, p.size);
  }

  lemma PartSplit(p: Loop, c: nat, start: nat, a: nat, b: nat)
    requires Allowed(p) && c < p.m.cores
    ensures Part(p, c, start, a + b) == Part(p, c, start, a) + Part(p, c, start + a, b)
  {
    hide Localize, LocalVisits, ElemSize;
    PartFirst(p, c, start, a);
    LocalVisitsConcat(p.m, p.base, p.size, c, Localize(p.m, p.base, p.size, c) + start * p.size, a, b);
  }

  lemma PartFirst(p: Loop, c: nat, start: nat, a: nat)
    requires Allowed(p) && c < p.m.cores
    ensures p.size >= 1
    ensures var first := Localize(p.m, p.base, p.size, c);
      && first + start * p.size >= p.m.chunkBase
      && first + start * p.size + a * p.size == first + (start + a) * p.size
  {
    hide Localize;
    FirstInChunk(p, c, start);
    SumTimes(start, a, p.size);
  }

  lemma SumTimes(a: nat, b: nat, size: nat)
    ensures (a + b) * size == a * size + b * size
  {
  }

  lemma PartEmpty(p: Loop, c: nat, start: nat)
    requires Allowed(p)
    ensures Part(p, c, start, 0) == multiset{}
  {
  }

  /** The number of elements of the k-th core. */
  function ShareSize(p: Loop, k: nat): nat
    requires Allowed(p) && k < Fanout(p)
  {
    LocalSizeBound(p.m, p.base, p.nelems, p.size, CoreAt(p, k));
    LocalSize(p.m, p.base, p.nelems, p.size, CoreAt(p, k))
  }

  function CoreAt(p: Loop, k: nat): (c: nat)
    requires Allowed(p)
    ensures c < p.m.cores
  {
    NthCore(p.m, CoreOf(p.m, p.base), k)
  }

  lemma ShareSizeBound(p: Loop, k: nat)
    requires Allowed(p) && k < Fanout(p)
    ensures ShareSize(p, k) < LIMIT_48
  {
    LocalSizeBound(p.m, p.base, p.nelems, p.size, CoreAt(p, k));
  }

  function Share(p: Loop, k: nat): multiset<Visit>
    requires Allowed(p) && k < Fanout(p)
  {
    Part(p, CoreAt(p, k), 0, ShareSize(p, k))
  }

  /** The visits of the cores from the k-th on. */
  function Shares(p: Loop, k: nat): multiset<Visit>
    requires Allowed(p)
    decreases Fanout(p) - k
  {
    if k < Fanout(p) then Share(p, k) + Shares(p, k + 1) else multiset{}
  }

  lemma {:induction false} SharesUpTo(p: Loop, k: nat, before: multiset<Visit>)
    requires Allowed(p) && k <= Fanout(p) && VisitedUpTo(p.m, p.base, p.nelems, p.size, k, before)
    ensures VisitedUpTo(p.m, p.base, p.nelems, p.size, Fanout(p), before + Shares(p, k))
    decreases Fanout(p) - k
  {
    if k < Fanout(p) {
      OneMoreShare(p, k, before);
      hide VisitedUpTo, Share;
      SharesUpTo(p, k + 1, before + Share(p, k));
      assert before + Share(p, k) + Shares(p, k + 1) == before + Shares(p, k);
    } else {
      assert before + Shares(p, k) == before;
    }
  }

  lemma OneMoreShare(p: Loop, k: nat, before: multiset<Visit>)
    requires Allowed(p) && k < Fanout(p) && VisitedUpTo(p.m, p.base, p.nelems, p.size, k, before)
    ensures VisitedUpTo(p.m, p.base, p.nelems, p.size, k + 1, before + Share(p, k))
  {
    AddCore(p.m, p.base, p.nelems, p.size, k, before);
    assert 0 * p.size == 0;
    hide VisitedUpTo, LocalVisits, Localize, CoreOf;
  }

  /** Altogether the loop owes one visit for every index, on its home core and with its element, and no other. */
  lemma SharesAreExpected(p: Loop, v: Visit)
    requires Allowed(p)
    ensures Shares(p, 0)[v] == if Expected(p.m, p.base, p.nelems, p.size, v) then 1 else 0
  {
    NobodyVisited(p.m, p.base, p.nelems, p.size);
    SharesUpTo(p, 0, multiset{});
    assert multiset{} + Shares(p, 0) == Shares(p, 0);
    hide VisitedUpTo, Shares;
    AllVisited(p.m, p.base, p.nelems, p.size, Fanout(p), Shares(p, 0));
  }
}
