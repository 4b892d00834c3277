/**
 The least-recently-used queue of the aggregator: a doubly linked list threaded through
 an array of entries, one per key, between two sentinels.  A key enters at the newer end
 unless it is in already, and can be removed from anywhere.
 */
module LRQueue {
  import opened Basics

  /** A queued key, with the priority it entered with. */
  datatype Item = Item(key: nat, priority: int)

  // Link values that are no key: none, and the two sentinels.
  const NULL: int := -3
  const NEWEST: int := -2
  const OLDEST: int := -1

  function OlderOf(order: seq<nat>, i: nat): int
    requires i < |order|
  {
    if i == 0 then OLDEST else order[i - 1]
  }

  function NewerOf(order: seq<nat>, i: nat): int
    requires i < |order|
  {
    if i + 1 < |order| then order[i + 1] else NEWEST
  }

  /** The entry of the i-th key is linked to its neighbours. */
  predicate InPlace(order: seq<nat>, older: seq<int>, newer: seq<int>, i: nat) {
    i < |order| && |older| == |newer| ==>
      order[i] < |older| && older[order[i]] == OlderOf(order, i) && newer[order[i]] == NewerOf(order, i)
  }

  predicate Unlinked(older: seq<int>, newer: seq<int>, k: nat) {
    k < |older| && k < |newer| && older[k] == NULL && newer[k] == NULL
  }

  /** The links of the entries run through order, and through nothing else. */
  ghost predicate Linked(order: seq<nat>, older: seq<int>, newer: seq<int>) {
    && |older| == |newer| && NoDup(order)
    && (forall i :: InPlace(order, older, newer, i))
    && (forall k: nat :: k < |older| && k !in order ==> Unlinked(older, newer, k))
  }

  function First(order: seq<nat>): int {
    if order == [] then NEWEST else order[0]
  }

  function Last(order: seq<nat>): int {
    if order == [] then OLDEST else order[|order| - 1]
  }

  function Items(order: seq<nat>, priority: seq<int>): seq<Item> {
    seq(|order|, i requires 0 <= i < |order| =>
      Item(order[i], if order[i] < |priority| then priority[order[i]] else 0))
  }

  /** order without its i-th key */
  function Cut(order: seq<nat>, i: nat): seq<nat>
    requires i < |order|
  {
    order[..i] + order[i + 1..]
  }

  /** A key is in the queue exactly when it has an older neighbour. */
  lemma QueuedIff(order: seq<nat>, older: seq<int>, newer: seq<int>, key: nat)
    requires Linked(order, older, newer) && key < |older|
    ensures key in order <==> older[key] != NULL
  {
    if key in order {
      var i := IndexOf(order, key);
      assert InPlace(order, older, newer, i);
    }
  }

  lemma NeighboursExist(order: seq<nat>, older: seq<int>, newer: seq<int>, i: nat)
    requires Linked(order, older, newer) && i < |order|
    ensures order[i] < |older| && older[order[i]] == OlderOf(order, i) && newer[order[i]] == NewerOf(order, i)
    ensures i > 0 ==> order[i - 1] < |older| && order[i - 1] != order[i]
    ensures i + 1 < |order| ==> order[i + 1] < |older| && order[i + 1] != order[i]
  {
    assert InPlace(order, older, newer, i);
    if i > 0 { assert InPlace(order, older, newer, i - 1); }
    if i + 1 < |order| { assert InPlace(order, older, newer, i + 1); }
  }

  class Queue {
    const older: array<int>
    const newer: array<int>
    const priority: array<int>
    var oldestNewer: int
    var newestOlder: int
    ghost var order: seq<nat>

    ghost predicate Valid()
      reads this, older, newer, priority
    {
      && older.Length == newer.Length == priority.Length && older != newer && older != priority && newer != priority
      && Linked(order, older[..], newer[..]) && oldestNewer == First(order) && newestOlder == Last(order)
    }

    ghost function View(): seq<Item>
      reads this, priority
    {
      Items(order, priority[..])
    }

    constructor (size: nat)
      ensures Valid() && fresh(older) && fresh(newer) && fresh(priority) && older.Length == size && View() == [] && order == []
    {
      older := new int[size](_ => NULL);
      newer := new int[size](_ => NULL);
      priority := new int[size](_ => 0);
      oldestNewer, newestOlder, order := NEWEST, OLDEST, [];
    }

    method Empty() returns (empty: bool)
      requires Valid()
      ensures empty <==> order == []
    {
      empty := oldestNewer == NEWEST;
    }

    method Top() returns (key: nat, prio: int)
      requires Valid() && order != []
      ensures key == order[0] && key < older.Length && Item(key, prio) == View()[0]
    {
      NeighboursExist(order, older[..], newer[..], 0);
      key := oldestNewer;
      prio := priority[key];
    }

    /** Insert at the newer end; a key that is in the queue keeps its place and its priority. */
    method UpdateOrInsert(key: nat, prio: int)
      requires Valid() && key < older.Length
      modifies this, older, newer, priority
      ensures Valid() && order == if key in old(order) then old(order) else old(order) + [key]
      ensures View() == if key in old(order) then old(View()) else old(View()) + [Item(key, prio)]
    {
      QueuedIff(order, older[..], newer[..], key);
      if older[key] == NULL {
        ghost var was, older0, newer0, priority0 := order, older[..], newer[..], priority[..];
        if was != [] { NeighboursExist(was, older0, newer0, |was| - 1); }
        hide Linked, Items;
        newer[key] := NEWEST;
        older[key] := newestOlder;
        newestOlder := key;
        if older[key] == OLDEST {
          oldestNewer := key;
        } else {
          newer[older[key]] := key;
        }
        priority[key] := prio;
        order := was + [key];
        LinkedAppend(was, older0, newer0, older[..], newer[..], key);
        ItemsAppend(was, priority0, priority[..], key, prio);
      }
    }

    /** Unlink a key, if it is in the queue. */
    method RemoveKey(key: nat)
      requires Valid() && key < older.Length
      modifies this, older, newer
      ensures Valid() && key !in order
      ensures key !in old(order) ==> order == old(order)
      ensures forall i :: 0 <= i < |old(order)| && old(order)[i] == key ==> order == Cut(old(order), i)
    {
      QueuedIff(order, older[..], newer[..], key);
      if older[key] != NULL {
        ghost var was, older0, newer0 := order, older[..], newer[..];
        ghost var i := IndexOf(was, key);
        NeighboursExist(was, older0, newer0, i);
        OnlyOnce(was, i);
        hide Linked, NoDup;
        if older[key] == OLDEST { oldestNewer := newer[key]; } else { newer[older[key]] := newer[key]; }
        if newer[key] == NEWEST { newestOlder := older[key]; } else { older[newer[key]] := older[key]; }
        older[key] := NULL;
        newer[key] := NULL;
        order := Cut(was, i);
        LinkedCut(was, older0, newer0, older[..], newer[..], i);
      }
    }
  }

  lemma ItemsAppend(order: seq<nat>, priority: seq<int>, priority': seq<int>, key: nat, prio: int)
    requires key < |priority| && priority' == priority[key := prio] && key !in order
    ensures Items(order + [key], priority') == Items(order, priority) + [Item(key, prio)]
  {
    forall i | 0 <= i < |order| ensures order[i] != key { assert order[i] in order; }
  }

  lemma OnlyOnce(order: seq<nat>, i: nat)
    requires i < |order| && NoDup(order)
    ensures forall j :: 0 <= j < |order| && order[j] == order[i] ==> j == i
  {
  }

  lemma IndexOf(order: seq<nat>, key: nat) returns (i: nat)
    requires key in order
    ensures i < |order| && order[i] == key
  {
    i :| i < |order| && order[i] == key;
  }

  /** Linking a new key in at the newer end. */
  lemma LinkedAppend(order: seq<nat>, older: seq<int>, newer: seq<int>, older': seq<int>, newer': seq<int>, key: nat)
    requires Linked(order, older, newer) && key < |older| && key !in order && |older'| == |older| && |newer'| == |newer|
    requires forall k :: 0 <= k < |older| ==> older'[k] == if k == key then Last(order) else older[k]
    requires forall k :: 0 <= k < |newer| ==> newer'[k] == if k == key then NEWEST else if k == Last(order) then key else newer[k]
    ensures Linked(order + [key], older', newer')
  {
    var order' := order + [key];
    assert NoDup(order') by {
      forall i, j | 0 <= i < j < |order'| ensures order'[i] != order'[j] { assert order'[i] in order; }
    }
    forall i: nat ensures InPlace(order', older', newer', i) {
      if i < |order| {
        assert order[i] in order;
        NeighboursExist(order, older, newer, i);
        assert order'[i] == order[i];
        assert i + 1 < |order| ==> order[i] != order[|order| - 1];
      } else if i == |order| {
        assert order != [] ==> order[|order| - 1] in order;
      }
    }
    forall k: nat | k < |older'| && k !in order' ensures Unlinked(older', newer', k) {
      assert order'[|order|] == key;
      assert k !in order;
      assert Unlinked(older, newer, k);
      assert order != [] ==> order[|order| - 1] in order;
    }
  }

  lemma CutAt(order: seq<nat>, i: nat, j: nat)
    requires i < |order| && j < |order| - 1
    ensures Cut(order, i)[j] == order[if j < i then j else j + 1]
  {
  }

  lemma CutMembers(order: seq<nat>, i: nat)
    requires NoDup(order) && i < |order|
    ensures NoDup(Cut(order, i)) && order[i] !in Cut(order, i)
    ensures forall k :: k in order && k != order[i] ==> k in Cut(order, i)
  {
    var cut := Cut(order, i);
    forall a, b | 0 <= a < b < |cut| ensures cut[a] != cut[b] {
      CutAt(order, i, a);
      CutAt(order, i, b);
    }
    forall a | 0 <= a < |cut| ensures cut[a] != order[i] { CutAt(order, i, a); }
    forall k | k in order && k != order[i] ensures k in cut {
      var a := IndexOf(order, k);
      CutAt(order, i, if a < i then a else a - 1);
    }
  }

  lemma CutInPlace(order: seq<nat>, older: seq<int>, newer: seq<int>, older': seq<int>, newer': seq<int>, i: nat, j: nat)
    requires Linked(order, older, newer) && i < |order| && |older'| == |older| && |newer'| == |newer|
    requires forall k :: 0 <= k < |newer| ==>
      newer'[k] == if k == order[i] then NULL else if k == OlderOf(order, i) then NewerOf(order, i) else newer[k]
    requires forall k :: 0 <= k < |older| ==>
      older'[k] == if k == order[i] then NULL else if k == NewerOf(order, i) then OlderOf(order, i) else older[k]
    ensures InPlace(Cut(order, i), older', newer', j)
  {
    var cut := Cut(order, i);
    if j < |cut| {
      var a := if j < i then j else j + 1;
      CutAt(order, i, j);
      if j > 0 { CutAt(order, i, j - 1); }
      if j + 1 < |cut| { CutAt(order, i, j + 1); }
      NeighboursExist(order, older, newer, a);
      NeighboursExist(order, older, newer, i);
      assert order[a] != order[i];
      assert i > 0 && a != i - 1 ==> order[a] != order[i - 1];
      assert i + 1 < |order| && a != i + 1 ==> order[a] != order[i + 1];
    }
  }

  /** Unlinking the i-th key. */
  lemma LinkedCut(order: seq<nat>, older: seq<int>, newer: seq<int>, older': seq<int>, newer': seq<int>, i: nat)
    requires Linked(order, older, newer) && i < |order| && |older'| == |older| && |newer'| == |newer|
    requires forall k :: 0 <= k < |newer| ==>
      newer'[k] == if k == order[i] then NULL else if k == OlderOf(order, i) then NewerOf(order, i) else newer[k]
    requires forall k :: 0 <= k < |older| ==>
      older'[k] == if k == order[i] then NULL else if k == NewerOf(order, i) then OlderOf(order, i) else older[k]
    ensures Linked(Cut(order, i), older', newer') && order[i] !in Cut(order, i)
    ensures First(Cut(order, i)) == if i == 0 then NewerOf(order, i) else First(order)
    ensures Last(Cut(order, i)) == if i + 1 == |order| then OlderOf(order, i) else Last(order)
  {
    var cut := Cut(order, i);
    CutMembers(order, i);
    forall j: nat ensures InPlace(cut, older', newer', j) { CutInPlace(order, older, newer, older', newer', i, j); }
    forall k: nat | k < |older'| && k !in cut ensures Unlinked(older', newer', k) {
      if k != order[i] {
        assert k !in order;
        assert Unlinked(older, newer, k);
        assert i > 0 ==> order[i - 1] in order;
        assert i + 1 < |order| ==> order[i + 1] in order;
      }
    }
  }
}
