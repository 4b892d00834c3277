/** Sums of a sequence, and of a map's values over a set of its keys. */
module Sums {
  function Sum(xs: seq<nat>): nat {
    if xs == [] then 0 else xs[0] + Sum(xs[1..])
  }

  lemma {:induction false} SumAppend(xs: seq<nat>, ys: seq<nat>)
    ensures Sum(xs + ys) == Sum(xs) + Sum(ys)
  {
    if xs == [] {
      assert xs + ys == ys;
    } else {
      SumAppend(xs[1..], ys);
      assert (xs + ys)[1..] == xs[1..] + ys;
    }
  }

  lemma SumRemove(xs: seq<nat>, i: nat)
    requires i < |xs|
    ensures Sum(xs) == Sum(xs[..i] + xs[i + 1..]) + xs[i]
  {
    SumAppend(xs[..i], xs[i..]);
    SumAppend(xs[..i], xs[i + 1..]);
    assert xs == xs[..i] + xs[i..] && xs[i..][1..] == xs[i + 1..];
  }

  ghost function SumOver<T(!new)>(m: map<T, int>, ts: set<T>): int
    requires ts <= m.Keys
  {
    if ts == {} then 0
    else
      var t :| t in ts;
      m[t] + SumOver(m, ts - {t})
  }

  lemma {:induction false} SumWithout<T(!new)>(m: map<T, int>, ts: set<T>, t: T)
    requires ts <= m.Keys && t in ts
    ensures SumOver(m, ts) == m[t] + SumOver(m, ts - {t})
    decreases ts
  {
    var u :| u in ts && SumOver(m, ts) == m[u] + SumOver(m, ts - {u});
    if u != t {
      SumWithout(m, ts - {u}, t);
      SumWithout(m, ts - {t}, u);
      assert ts - {u} - {t} == ts - {t} - {u};
    }
  }

  /** The sum depends only on the values at its keys. */
  lemma {:induction false} SumSame<T(!new)>(m: map<T, int>, m': map<T, int>, ts: set<T>)
    requires ts <= m.Keys && ts <= m'.Keys && forall t :: t in ts ==> m[t] == m'[t]
    ensures SumOver(m, ts) == SumOver(m', ts)
    decreases ts
  {
    if ts != {} {
      var t :| t in ts;
      SumWithout(m, ts, t);
      SumWithout(m', ts, t);
      SumSame(m, m', ts - {t});
    }
  }

  lemma {:induction false} SumUnion<T(!new)>(m: map<T, int>, ts: set<T>, us: set<T>)
    requires ts <= m.Keys && us <= m.Keys && ts !! us
    ensures SumOver(m, ts + us) == SumOver(m, ts) + SumOver(m, us)
    decreases us
  {
    if us == {} {
      assert ts + us == ts;
    } else {
      var u :| u in us;
      SumUnion(m, ts, us - {u});
      SumWithout(m, us, u);
      SumWithout(m, ts + us, u);
      assert ts + us - {u} == ts + (us - {u});
    }
  }
}
