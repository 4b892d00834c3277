/** Reducing values over a set of cores with an operator whose grouping and order do not matter. */
module Folds {
  import opened Basics

  ghost predicate Commutes<T(!new)>(op: (T, T) -> T) {
    && (forall x, y :: op(x, y) == op(y, x))
    && (forall x, y, z :: op(op(x, y), z) == op(x, op(y, z)))
  }

  lemma OthersLeft(cs: set<nat>, c: nat)
    requires c in cs && cs != {c}
    ensures cs - {c} != {}
  {
    var d :| d in cs && d != c;
    assert d in cs - {c};
  }

  /** The reduction of the k-th values of the cores in cs. */
  ghost function Fold<T>(op: (T, T) -> T, v: (nat, nat) -> T, k: nat, cs: set<nat>): T
    requires cs != {}
    decreases cs
  {
    var c :| c in cs;
    if cs == {c} then v(c, k)
    else
      OthersLeft(cs, c);
      op(Fold(op, v, k, cs - {c}), v(c, k))
  }

  lemma FoldOne<T>(op: (T, T) -> T, v: (nat, nat) -> T, k: nat, c: nat)
    ensures Fold(op, v, k, {c}) == v(c, k)
  {
  }

  /** Any core's value can be taken out last. */
  lemma {:induction false} FoldWithout<T(!new)>(op: (T, T) -> T, v: (nat, nat) -> T, k: nat, cs: set<nat>, c: nat)
    requires Commutes(op) && c in cs && cs - {c} != {}
    ensures Fold(op, v, k, cs) == op(Fold(op, v, k, cs - {c}), v(c, k))
    decreases cs
  {
    var u :| u in cs && (cs == {u} || (cs - {u} != {} && Fold(op, v, k, cs) == op(Fold(op, v, k, cs - {u}), v(u, k))));
    if u != c {
      assert c in cs - {u} && u in cs - {c};
      if cs - {u} == {c} {
        assert cs - {c} == {u};
        FoldOne(op, v, k, c);
        FoldOne(op, v, k, u);
      } else {
        var rest := cs - {u} - {c};
        OthersLeft(cs - {u}, c);
        assert rest == cs - {c} - {u};
        FoldWithout(op, v, k, cs - {u}, c);
        FoldWithout(op, v, k, cs - {c}, u);
        Swap(op, Fold(op, v, k, rest), v(c, k), v(u, k));
      }
    }
  }

  lemma Swap<T(!new)>(op: (T, T) -> T, x: T, y: T, z: T)
    requires Commutes(op)
    ensures op(op(x, y), z) == op(op(x, z), y)
  {
    assert op(op(x, y), z) == op(x, op(y, z));
    assert op(op(x, z), y) == op(x, op(z, y));
  }

  /** Adding a core's value to the reduction of others. */
  lemma FoldWith<T(!new)>(op: (T, T) -> T, v: (nat, nat) -> T, k: nat, cs: set<nat>, c: nat)
    requires Commutes(op) && c !in cs && cs != {}
    ensures Fold(op, v, k, cs + {c}) == op(Fold(op, v, k, cs), v(c, k))
  {
    assert cs + {c} - {c} == cs;
    FoldWithout(op, v, k, cs + {c}, c);
  }

  /** As many cores as there are, are all of them. */
  lemma FullSet(cs: set<nat>, n: nat)
    requires cs <= CoreSet(n)
    ensures |cs| <= n && (|cs| == n <==> cs == CoreSet(n))
  {
    if cs != CoreSet(n) {
      var c :| c in CoreSet(n) && c !in cs;
      SubsetSize(cs + {c}, CoreSet(n));
      assert |cs + {c}| == |cs| + 1;
    }
  }

  lemma {:induction false} SubsetSize(a: set<nat>, b: set<nat>)
    requires a <= b
    ensures |a| <= |b|
    decreases a
  {
    if a != {} {
      var x :| x in a;
      SubsetSize(a - {x}, b - {x});
      assert x in b && |b - {x}| == |b| - 1 && |a - {x}| == |a| - 1;
    }
  }
}
