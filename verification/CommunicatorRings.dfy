/**
 The communicator's rings of message contexts.  Indices wrap around by masking; behind
 them are counters that only grow: how many contexts were handed out or posted, how
 many dispatched, how many retired.
 */
module CommunicatorRings {
  import opened Basics
  import opened Bits

  // ---------- Wrapping around ----------

  /** Masking with 2^k - 1 is the remainder. */
  lemma {:induction false} AndMask(a: nat, k: nat)
    ensures And(a, Pow2(k) - 1) == a % Pow2(k)
  {
    hide And, Pow2;
    Pow2Step(k);
    if a == 0 || k == 0 {
      AndZero(a);
      AndZero(Pow2(k) - 1);
      SmallModulus(a, Pow2(k));
    } else {
      AndMask(a / 2, k - 1);
      MaskStep(a, Pow2(k - 1));
    }
  }

  lemma Pow2Step(k: nat)
    ensures Pow2(k) == if k == 0 then 1 else 2 * Pow2(k - 1)
  {
  }

  lemma SmallModulus(a: nat, n: nat)
    requires n >= 1
    ensures (a == 0 ==> a % n == 0) && (n == 1 ==> a % n == 0)
  {
  }

  lemma AndZero(a: nat)
    ensures And(a, 0) == 0 && And(0, a) == 0
  {
  }

  lemma MaskStep(a: nat, p: nat)
    requires p >= 1 && a > 0 && And(a / 2, p - 1) == (a / 2) % p
    ensures And(a, 2 * p - 1) == a % (2 * p)
  {
    hide And;
    AndUnfold(a, 2 * p - 1);
    ModDouble(a, p);
  }

  lemma AndUnfold(a: nat, b: nat)
    requires a > 0 && b > 0
    ensures And(a, b) == 2 * And(a / 2, b / 2) + (if a % 2 == 1 && b % 2 == 1 then 1 else 0)
  {
  }

  lemma ModDouble(a: nat, p: nat)
    requires p >= 1
    ensures a % (2 * p) == 2 * ((a / 2) % p) + a % 2
  {
    var q, r := (a / 2) / p, (a / 2) % p;
    assert a / 2 == q * p + r;
    assert a == q * (2 * p) + (2 * r + a % 2);
    DivMod(a, 2 * p, q, 2 * r + a % 2);
  }

  /** The next index: `(i + 1) & mask`. */
  function Next(i: nat, k: nat): nat {
    And(i + 1, Pow2(k) - 1)
  }

  function Slot(number: nat, k: nat): (i: nat)
    ensures i < Pow2(k)
  {
    number % Pow2(k)
  }

  lemma NextSlot(number: nat, k: nat)
    ensures Next(Slot(number, k), k) == Slot(number + 1, k)
  {
    AndMask(Slot(number, k) + 1, k);
    NextRemainder(number, Pow2(k));
    hide And, Pow2;
  }

  lemma NextRemainder(number: nat, n: nat)
    requires n >= 1
    ensures (number % n + 1) % n == (number + 1) % n
  {
    var q, r := number / n, number % n;
    assert number == q * n + r;
    if r + 1 < n {
      DivMod(number + 1, n, q, r + 1);
      DivMod(r + 1, n, 0, r + 1);
    } else {
      DivMod(number + 1, n, q + 1, 0);
      DivMod(r + 1, n, 1, 0);
    }
  }

  /** Numbers less than a round apart have different slots, and a whole round apart the same. */
  lemma SlotsDiffer(a: nat, b: nat, k: nat)
    requires a <= b < a + Pow2(k)
    ensures Slot(a, k) == Slot(b, k) <==> a == b
  {
    var n := Pow2(k);
    var q, r := a / n, a % n;
    assert a == q * n + r;
    if a < b {
      if r + (b - a) < n {
        DivMod(b, n, q, r + (b - a));
      } else {
        assert b == (q + 1) * n + (r + (b - a) - n);
        DivMod(b, n, q + 1, r + (b - a) - n);
      }
    }
  }

  lemma SlotZero(k: nat)
    ensures Slot(0, k) == 0
  {
  }

  lemma SlotRound(a: nat, k: nat)
    ensures Slot(a + Pow2(k), k) == Slot(a, k)
  {
    var n := Pow2(k);
    DivMod(a + n, n, a / n + 1, a % n);
  }

  // ---------- Sends ----------

  /** The send ring's contexts, by reference count, with the two indices. */
  datatype Sends = Sends(refs: seq<int>, head: nat, tail: nat)

  /** `try_get_send_context`: the ring afterwards, and the context handed out. */
  function TryGet(s: Sends, k: nat): (Sends, Option<nat>) {
    if Next(s.head, k) != s.tail then (s.(head := Next(s.head, k)), Some(s.head)) else (s, None)
  }

  /** `post_send` */
  function Post(s: Sends, i: nat): Sends
    requires i < |s.refs|
  {
    s.(refs := s.refs[i := 1])
  }

  /** `garbage_collect` on the send ring, with the answers that MPI gives to its tests, in order. */
  function Collect(s: Sends, k: nat, answers: seq<bool>): Sends
    decreases |answers|
  {
    if s.tail == s.head || s.tail >= |s.refs| || s.refs[s.tail] <= 0 || answers == [] || !answers[0] then s
    else Collect(s.(refs := s.refs[s.tail := 0], tail := Next(s.tail, k)), k, answers[1..])
  }

  class SendRing {
    const k: nat
    const mask: nat
    const refs: array<int>
    var head: nat
    var tail: nat

    ghost predicate Valid()
      reads this, refs
    {
      refs.Length == Pow2(k) && mask == Pow2(k) - 1 && head < Pow2(k) && tail < Pow2(k)
    }

    ghost function View(): Sends
      reads this, refs
    {
      Sends(refs[..], head, tail)
    }

    constructor (k: nat)
      ensures Valid() && this.k == k && fresh(refs) && head == 0 && tail == 0 && forall i :: 0 <= i < refs.Length ==> refs[i] == 0
    {
      this.k := k;
      mask := Pow2(k) - 1;
      refs := new int[Pow2(k)](_ => 0);
      head, tail := 0, 0;
    }

    /** The check that the context is not in use is this method's precondition on the ring. */
    method TryGetSendContext() returns (c: Option<nat>)
      requires Valid() && (And(head + 1, mask) != tail ==> refs[head] == 0)
      modifies this
      ensures Valid() && (View(), c) == TryGet(old(View()), k)
    {
      c := None;
      AndMask(head + 1, k);
      if And(head + 1, mask) != tail {
        c := Some(head);
        head := And(head + 1, mask);
      }
    }

    method PostSend(c: nat)
      requires Valid() && c < refs.Length
      modifies refs
      ensures Valid() && View() == Post(old(View()), c)
    {
      refs[c] := 1;
    }

    /** Retire finished sends from the tail on, up to the first that is not posted or not sent. */
    method GarbageCollect(answers: seq<bool>)
      requires Valid()
      modifies this, refs
      ensures Valid() && View() == Collect(old(View()), k, answers)
    {
      var left := answers;
      while tail != head
        invariant Valid() && Collect(View(), k, left) == Collect(old(View()), k, answers)
        decreases |left|
      {
        if refs[tail] > 0 {
          var flag := left != [] && left[0];
          if flag {
            AndMask(tail + 1, k);
            refs[tail] := 0;
            tail := And(tail + 1, mask);
            left := left[1..];
          } else {
            break;
          }
        } else {
          break;
        }
      }
    }
  }

  // ---------- Whole runs of the send ring ----------

  /** The ring, and behind it: contexts handed out, contexts retired, sends posted and sends that MPI reported done. */
  datatype SendSys = SendSys(ring: Sends, given: nat, retired: nat, posted: set<nat>, sent: set<nat>)

  datatype SendStep = Get | PostNumber(a: nat) | GarbageCollect(answers: seq<bool>)

  function InitSends(k: nat): SendSys {
    SendSys(Sends(seq(Pow2(k), _ => 0), 0, 0), 0, 0, {}, {})
  }

  predicate SendEnabled(s: SendSys, step: SendStep) {
    match step
    case Get => true
    case PostNumber(a) => s.retired <= a < s.given && a !in s.posted
    case GarbageCollect(answers) => true
  }

  /** How many contexts a collection retires. */
  function Retires(s: Sends, k: nat, answers: seq<bool>): nat
    decreases |answers|
  {
    if s.tail == s.head || s.tail >= |s.refs| || s.refs[s.tail] <= 0 || answers == [] || !answers[0] then 0
    else 1 + Retires(s.(refs := s.refs[s.tail := 0], tail := Next(s.tail, k)), k, answers[1..])
  }

  /** The n numbers from lo on. */
  function Numbers(lo: nat, n: nat): (r: set<nat>)
    ensures forall a :: a in r <==> lo <= a < lo + n
    decreases n
  {
    if n == 0 then {} else {lo} + Numbers(lo + 1, n - 1)
  }

  /** How many of MPI's answers say that a send is done, up to the first that does not. */
  function Trues(answers: seq<bool>): nat {
    if answers == [] || !answers[0] then 0 else 1 + Trues(answers[1..])
  }

  /** MPI's answers are about the contexts in use, oldest first. */
  function ReportedDone(s: SendSys, answers: seq<bool>): set<nat> {
    Numbers(s.retired, Trues(answers)) * s.posted
  }

  function SendApply(s: SendSys, k: nat, step: SendStep): SendSys
    requires SendEnabled(s, step)
  {
    match step
    case Get =>
      var (ring, c) := TryGet(s.ring, k);
      s.(ring := ring, given := s.given + if c.Some? then 1 else 0)
    case PostNumber(a) =>
      if Slot(a, k) < |s.ring.refs| then s.(ring := Post(s.ring, Slot(a, k)), posted := s.posted + {a}) else s
    case GarbageCollect(answers) =>
      var n := Retires(s.ring, k, answers);
      s.(ring := Collect(s.ring, k, answers), retired := s.retired + n, sent := s.sent + ReportedDone(s, answers))
  }

  ghost predicate SendRun(s: SendSys, k: nat, steps: seq<SendStep>, s': SendSys)
    decreases |steps|
  {
    if steps == [] then s' == s
    else SendEnabled(s, steps[0]) && SendRun(SendApply(s, k, steps[0]), k, steps[1..], s')
  }

  /** Contexts in use are those given and not retired; a posted one counts 1, any other 0. */
  ghost predicate SendInv(s: SendSys, k: nat) {
    && |s.ring.refs| == Pow2(k) && s.ring.head == Slot(s.given, k) && s.ring.tail == Slot(s.retired, k)
    && s.retired <= s.given < s.retired + Pow2(k)
    && (forall a :: a in s.posted ==> a < s.given)
    && (forall a: nat :: s.retired <= a < s.given ==> s.ring.refs[Slot(a, k)] == if a in s.posted then 1 else 0)
    && (forall a: nat :: s.given <= a < s.retired + Pow2(k) ==> s.ring.refs[Slot(a, k)] == 0)
    && (forall a: nat :: a < s.retired ==> a in s.posted && a in s.sent)
  }

  lemma SendInitInv(k: nat)
    ensures SendInv(InitSends(k), k)
  {
  }

  lemma GetInv(s: SendSys, k: nat)
    requires SendInv(s, k)
    ensures SendInv(SendApply(s, k, Get), k)
    ensures TryGet(s.ring, k).1 == if s.given + 1 == s.retired + Pow2(k) then None else Some(Slot(s.given, k))
  {
    NextSlot(s.given, k);
    SlotRound(s.retired, k);
    if s.given + 1 < s.retired + Pow2(k) { SlotsDiffer(s.retired, s.given + 1, k); }
  }

  lemma PostInv(s: SendSys, k: nat, a: nat)
    requires SendInv(s, k) && SendEnabled(s, PostNumber(a))
    ensures SendInv(SendApply(s, k, PostNumber(a)), k)
  {
    var s' := SendApply(s, k, PostNumber(a));
    forall b: nat | s.retired <= b < s.retired + Pow2(k) && b != a ensures Slot(b, k) != Slot(a, k) {
      if a < b { SlotsDiffer(a, b, k); } else { SlotsDiffer(b, a, k); }
    }
  }

  /** Retiring the oldest context in use, whose send is done. */
  function RetireOne(s: SendSys, k: nat): SendSys
    requires s.ring.tail < |s.ring.refs|
  {
    s.(ring := s.ring.(refs := s.ring.refs[s.ring.tail := 0], tail := Next(s.ring.tail, k)),
       retired := s.retired + 1, sent := s.sent + {s.retired})
  }

  lemma RetireOneInv(s: SendSys, k: nat)
    requires SendInv(s, k) && s.ring.tail != s.ring.head && s.ring.refs[s.ring.tail] > 0
    ensures SendInv(RetireOne(s, k), k)
  {
    var s', t := RetireOne(s, k), s.retired;
    assert t < s.given;
    NextSlot(t, k);
    SlotRound(t, k);
    forall b: nat | t < b < t + Pow2(k) ensures Slot(b, k) != Slot(t, k) { SlotsDiffer(t, b, k); }
    assert t in s.posted;
  }

  lemma {:induction false} CollectInv(s: SendSys, k: nat, answers: seq<bool>)
    requires SendInv(s, k)
    ensures SendInv(SendApply(s, k, GarbageCollect(answers)), k)
    decreases |answers|
  {
    var n := Retires(s.ring, k, answers);
    if n == 0 {
      assert Collect(s.ring, k, answers) == s.ring;
    } else {
      var s1 := RetireOne(s, k);
      RetireOneInv(s, k);
      CollectInv(s1, k, answers[1..]);
      assert s.retired in s.posted;
      assert s.sent + ReportedDone(s, answers) == s1.sent + ReportedDone(s1, answers[1..]);
      assert SendApply(s, k, GarbageCollect(answers)) == SendApply(s1, k, GarbageCollect(answers[1..]));
    }
  }

  lemma {:induction false} SendRunInv(s: SendSys, k: nat, steps: seq<SendStep>, s': SendSys)
    requires SendInv(s, k) && SendRun(s, k, steps, s')
    ensures SendInv(s', k)
    decreases |steps|
  {
    hide SendInv, SendApply;
    if steps != [] {
      match steps[0] {
        case Get => GetInv(s, k);
        case PostNumber(a) => PostInv(s, k, a);
        case GarbageCollect(answers) => CollectInv(s, k, answers);
      }
      SendRunInv(SendApply(s, k, steps[0]), k, steps[1..], s');
    }
  }

  /**
   In every run at most 2^k - 1 contexts are out; one is refused exactly then; and a
   context that is handed out is idle, and its previous send, one round earlier, was
   posted and reported done.
   */
  lemma ContextsAreReusedAfterSending(k: nat, steps: seq<SendStep>, s: SendSys)
    requires SendRun(InitSends(k), k, steps, s)
    ensures s.retired <= s.given <= s.retired + Pow2(k) - 1
    ensures TryGet(s.ring, k).1.None? <==> s.given == s.retired + Pow2(k) - 1
    ensures TryGet(s.ring, k).1.Some? ==>
      && TryGet(s.ring, k).1.value == Slot(s.given, k) < |s.ring.refs| && s.ring.refs[Slot(s.given, k)] == 0
      && (s.given >= Pow2(k) ==> s.given - Pow2(k) in s.posted && s.given - Pow2(k) in s.sent)
  {
    SendInitInv(k);
    SendRunInv(InitSends(k), k, steps, s);
    GetInv(s, k);
  }

  /** How many of the contexts from number a on were posted and are done, by MPI's answers, up to the first that is not. */
  function DoneFrom(a: nat, posted: set<nat>, answers: seq<bool>): nat
    decreases |answers|
  {
    if answers == [] || !answers[0] || a !in posted then 0 else 1 + DoneFrom(a + 1, posted, answers[1..])
  }

  lemma {:induction false} RetiresDone(s: SendSys, k: nat, answers: seq<bool>)
    requires SendInv(s, k)
    ensures Retires(s.ring, k, answers) == DoneFrom(s.retired, s.posted, answers)
    decreases |answers|
  {
    if answers != [] && answers[0] {
      SlotsDiffer(s.retired, s.given, k);
      if s.retired in s.posted {
        RetireOneInv(s, k);
        RetiresDone(RetireOne(s, k), k, answers[1..]);
      }
    }
  }

  /**
   In every run a collection retires every context, from the oldest on, whose send was
   posted and which MPI reports done, and stops at the first that is not; so as many more
   contexts can be handed out.
   */
  lemma FinishedSendsAreRetired(k: nat, steps: seq<SendStep>, s: SendSys, answers: seq<bool>)
    requires SendRun(InitSends(k), k, steps, s)
    ensures SendApply(s, k, GarbageCollect(answers)).retired == s.retired + DoneFrom(s.retired, s.posted, answers)
    ensures TryGet(Collect(s.ring, k, answers), k).1.None? <==>
      s.given == s.retired + DoneFrom(s.retired, s.posted, answers) + Pow2(k) - 1
  {
    SendInitInv(k);
    SendRunInv(InitSends(k), k, steps, s);
    RetiresDone(s, k, answers);
    CollectInv(s, k, answers);
    GetInv(SendApply(s, k, GarbageCollect(answers)), k);
  }

  // ---------- Receives ----------

  /**
   The receive ring's contexts by reference count and its three indices; behind them,
   how many receives were posted, dispatched and retired, the slots dispatched so far,
   and the reference count that each context had when it was posted.
   */
  datatype Receives = Receives(refs: seq<int>, head: nat, dispatch: nat, tail: nat,
                               posted: nat, dispatched: nat, retired: nat, log: seq<nat>, postRefs: seq<int>)

  predicate RecvOk(r: Receives, k: nat) {
    && |r.refs| == Pow2(k)
    && r.head == Slot(r.posted, k) && r.dispatch == Slot(r.dispatched, k) && r.tail == Slot(r.retired, k)
    && r.retired <= r.dispatched <= r.posted < r.retired + Pow2(k)
  }

  /** Consume buffers that are completely delivered. */
  function Retire(r: Receives, k: nat): Receives
    requires RecvOk(r, k)
    decreases r.dispatched - r.retired
  {
    if r.tail != r.dispatch && r.refs[r.tail] == 0 then
      NextSlot(r.retired, k);
      Retire(r.(tail := Next(r.tail, k), retired := r.retired + 1), k)
    else r
  }

  /** Behind the dispatch index there is something to retire. */
  lemma RetireRoom(r: Receives, k: nat)
    requires RecvOk(r, k) && r.tail != r.dispatch
    ensures r.retired < r.dispatched && Next(r.tail, k) == Slot(r.retired + 1, k)
  {
    NextSlot(r.retired, k);
  }

  /** Repost free buffers. */
  function PostFree(r: Receives, k: nat): Receives
    requires RecvOk(r, k)
    decreases r.retired + Pow2(k) - r.posted
  {
    if Next(r.head, k) != r.tail then
      PostRoom(r, k);
      PostFree(r.(head := Next(r.head, k), posted := r.posted + 1, postRefs := r.postRefs + [r.refs[r.head]]), k)
    else r
  }

  /** A context can be posted exactly while fewer than 2^k - 1 are. */
  lemma PostRoom(r: Receives, k: nat)
    requires RecvOk(r, k)
    ensures Next(r.head, k) == Slot(r.posted + 1, k)
    ensures Next(r.head, k) != r.tail <==> r.posted + 1 < r.retired + Pow2(k)
  {
    NextSlot(r.posted, k);
    SlotRound(r.retired, k);
    if r.posted + 1 < r.retired + Pow2(k) { SlotsDiffer(r.retired, r.posted + 1, k); }
  }

  lemma {:induction false} RetireOk(r: Receives, k: nat)
    requires RecvOk(r, k)
    ensures RecvOk(Retire(r, k), k)
    ensures Retire(r, k) == r.(tail := Retire(r, k).tail, retired := Retire(r, k).retired)
    decreases r.dispatched - r.retired
  {
    if r.tail != r.dispatch && r.refs[r.tail] == 0 {
      NextSlot(r.retired, k);
      RetireOk(r.(tail := Next(r.tail, k), retired := r.retired + 1), k);
    }
  }

  /** `repost_receive_buffers` */
  function Repost(r: Receives, k: nat): Receives
    requires RecvOk(r, k)
  {
    RetireOk(r, k);
    PostFree(Retire(r, k), k)
  }

  /** MPI's answer for the next buffer in line: not received, or received and delivered at once or later. */
  datatype Answer = NotYet | Received(delivered: bool)

  function DispatchOne(r: Receives, k: nat, delivered: bool): Receives
    requires RecvOk(r, k)
  {
    r.(refs := r.refs[r.dispatch := if delivered then 0 else 1], dispatch := Next(r.dispatch, k),
       dispatched := r.dispatched + 1, log := r.log + [r.dispatch])
  }

  lemma DispatchOneOk(r: Receives, k: nat, delivered: bool)
    requires RecvOk(r, k) && r.dispatch != r.head
    ensures RecvOk(DispatchOne(r, k, delivered), k)
  {
    NextSlot(r.dispatched, k);
  }

  lemma {:induction false} PostFreeOk(r: Receives, k: nat)
    requires RecvOk(r, k)
    ensures RecvOk(PostFree(r, k), k)
    decreases r.retired + Pow2(k) - r.posted
  {
    PostRoom(r, k);
    if Next(r.head, k) != r.tail {
      PostFreeOk(r.(head := Next(r.head, k), posted := r.posted + 1, postRefs := r.postRefs + [r.refs[r.head]]), k);
    }
  }

  lemma RepostOk(r: Receives, k: nat)
    requires RecvOk(r, k)
    ensures RecvOk(Repost(r, k), k)
  {
    RetireOk(r, k);
    PostFreeOk(Retire(r, k), k);
  }

  /** `process_received_buffers`, given MPI's answers in order. */
  function Process(r: Receives, k: nat, answers: seq<Answer>): Receives
    requires RecvOk(r, k)
    decreases |answers|
  {
    if r.dispatch == r.head || answers == [] || answers[0] == NotYet then Repost(r, k)
    else
      DispatchOneOk(r, k, answers[0].delivered);
      RepostOk(DispatchOne(r, k, answers[0].delivered), k);
      Process(Repost(DispatchOne(r, k, answers[0].delivered), k), k, answers[1..])
  }

  class ReceiveRing {
    const k: nat
    const mask: nat
    const refs: array<int>
    var head: nat
    var dispatch: nat
    var tail: nat
    ghost var posted: nat
    ghost var dispatched: nat
    ghost var retired: nat
    ghost var log: seq<nat>
    ghost var postRefs: seq<int>

    ghost function View(): Receives
      reads this, refs
    {
      Receives(refs[..], head, dispatch, tail, posted, dispatched, retired, log, postRefs)
    }

    ghost predicate Valid()
      reads this, refs
    {
      mask == Pow2(k) - 1 && RecvOk(View(), k)
    }

    constructor (k: nat)
      ensures Valid() && this.k == k && fresh(refs)
      ensures View() == Receives(refs[..], 0, 0, 0, 0, 0, 0, [], []) && forall i :: 0 <= i < refs.Length ==> refs[i] == 0
    {
      hide Pow2;
      SlotZero(k);
      this.k := k;
      mask := Pow2(k) - 1;
      refs := new int[Pow2(k)](_ => 0);
      head, dispatch, tail := 0, 0, 0;
      posted, dispatched, retired, log, postRefs := 0, 0, 0, [], [];
    }

    /** Consume buffers that are completely delivered. */
    method RetireDelivered()
      requires Valid()
      modifies this
      ensures Valid() && View() == Retire(old(View()), k)
    {
      hide And, Slot;
      while tail != dispatch
        invariant Valid() && Retire(View(), k) == Retire(old(View()), k)
        decreases dispatched - retired
      {
        NextSlot(retired, k);
        if refs[tail] == 0 {
          RetireRoom(View(), k);
          tail := And(tail + 1, mask);
          retired := retired + 1;
        } else {
          break;
        }
      }
    }

    /** Post free buffers. */
    method PostFreeBuffers()
      requires Valid()
      modifies this
      ensures Valid() && View() == PostFree(old(View()), k)
    {
      hide And, Slot;
      while And(head + 1, mask) != tail
        invariant Valid() && PostFree(View(), k) == PostFree(old(View()), k)
        decreases retired + Pow2(k) - posted
      {
        PostRoom(View(), k);
        postRefs := postRefs + [refs[head]];
        head := And(head + 1, mask);
        posted := posted + 1;
      }
    }

    method RepostReceiveBuffers()
      requires Valid()
      modifies this
      ensures Valid() && View() == Repost(old(View()), k)
    {
      RetireDelivered();
      PostFreeBuffers();
    }

    /** Start delivering the next buffer in line; the handler may be done with it at once. */
    method Receive(delivered: bool)
      requires Valid() && dispatch != head
      modifies this, refs
      ensures Valid() && View() == DispatchOne(old(View()), k, delivered)
    {
      hide And, Slot, Pow2;
      DispatchOneOk(View(), k, delivered);
      assert dispatch < refs.Length;
      hide RecvOk;
      ghost var was := refs[..];
      refs[dispatch] := 1;
      if delivered { refs[dispatch] := 0; }
      assert refs[..] == was[dispatch := if delivered then 0 else 1];
      log := log + [dispatch];
      dispatch := And(dispatch + 1, mask);
      dispatched := dispatched + 1;
    }

    /** Dispatch received buffers in order, up to the first that MPI has not received. */
    method ProcessReceivedBuffers(answers: seq<Answer>)
      requires Valid()
      modifies this, refs
      ensures Valid() && View() == Process(old(View()), k, answers)
    {
      hide And, Slot, Repost, DispatchOne;
      var left := answers;
      while dispatch != head
        invariant Valid() && Process(View(), k, left) == Process(old(View()), k, answers)
        decreases |left|
      {
        if left != [] && left[0] != NotYet {
          DispatchOneOk(View(), k, left[0].delivered);
          RepostOk(DispatchOne(View(), k, left[0].delivered), k);
          Receive(left[0].delivered);
          RepostReceiveBuffers();
          left := left[1..];
        } else {
          break;
        }
      }
      RepostReceiveBuffers();
    }
  }

  // ---------- Whole runs of the receive ring ----------

  /** The ring, and behind it the postings that MPI reported received, and those whose delivery is finished. */
  datatype RecvSys = RecvSys(r: Receives, received: set<nat>, delivered: set<nat>)

  /** Processing with MPI's answers, or the delivery of a dispatched buffer finishing later. */
  datatype RecvStep = ProcessReceived(answers: seq<Answer>) | Delivered(a: nat)

  function InitReceives(k: nat): RecvSys {
    RecvSys(Receives(seq(Pow2(k), _ => 0), 0, 0, 0, 0, 0, 0, [], []), {}, {})
  }

  predicate RecvEnabled(s: RecvSys, k: nat, step: RecvStep) {
    && RecvOk(s.r, k)
    && match step
       case ProcessReceived(answers) => true
       case Delivered(a) => s.r.retired <= a < s.r.dispatched && a !in s.delivered
  }

  /** How many buffers MPI says have been received, up to the first that has not. */
  function Leading(answers: seq<Answer>): (n: nat)
    ensures n <= |answers| && forall i :: 0 <= i < n ==> answers[i].Received?
  {
    if answers == [] || answers[0] == NotYet then 0 else 1 + Leading(answers[1..])
  }

  /** Of the first n buffers from number a on, those that were delivered at once. */
  function AtOnce(a: nat, n: nat, answers: seq<Answer>): (r: set<nat>)
    requires n <= |answers|
    ensures forall b :: b in r <==> a <= b < a + n && answers[b - a].Received? && answers[b - a].delivered
  {
    set b | b in Numbers(a, n) && answers[b - a].Received? && answers[b - a].delivered
  }

  /** The answers are about the buffers in line, in order; those that were dispatched have been asked about. */
  function Asked(r: Receives, r': Receives, answers: seq<Answer>): nat {
    if r'.dispatched < r.dispatched then 0
    else if r'.dispatched - r.dispatched <= Leading(answers) then r'.dispatched - r.dispatched
    else Leading(answers)
  }

  function RecvApply(s: RecvSys, k: nat, step: RecvStep): RecvSys
    requires RecvEnabled(s, k, step)
  {
    match step
    case ProcessReceived(answers) =>
      var r' := Process(s.r, k, answers);
      var n := Asked(s.r, r', answers);
      RecvSys(r', s.received + Numbers(s.r.dispatched, n), s.delivered + AtOnce(s.r.dispatched, n, answers))
    case Delivered(a) => s.(r := s.r.(refs := s.r.refs[Slot(a, k) := 0]), delivered := s.delivered + {a})
  }

  ghost predicate RecvRun(s: RecvSys, k: nat, steps: seq<RecvStep>, s': RecvSys)
    decreases |steps|
  {
    if steps == [] then s' == s
    else RecvEnabled(s, k, steps[0]) && RecvRun(RecvApply(s, k, steps[0]), k, steps[1..], s')
  }

  /** Only buffers being delivered are referenced; postings were dispatched in order; only idle contexts were posted. */
  ghost predicate RecvInv(r: Receives, k: nat) {
    && RecvOk(r, k) && InOrder(r, k) && Idle(r)
    && (forall a: nat :: r.dispatched <= a < r.retired + Pow2(k) ==> r.refs[Slot(a, k)] == 0)
  }

  predicate InOrder(r: Receives, k: nat) {
    |r.log| == r.dispatched && forall a :: 0 <= a < |r.log| ==> r.log[a] == Slot(a, k)
  }

  predicate Idle(r: Receives) {
    |r.postRefs| == r.posted && forall a :: 0 <= a < |r.postRefs| ==> r.postRefs[a] == 0
  }

  lemma {:induction false} RetireInv(r: Receives, k: nat)
    requires RecvInv(r, k)
    ensures RecvInv(Retire(r, k), k)
    decreases r.dispatched - r.retired
  {
    if r.tail != r.dispatch && r.refs[r.tail] == 0 {
      var r1 := r.(tail := Next(r.tail, k), retired := r.retired + 1);
      NextSlot(r.retired, k);
      SlotRound(r.retired, k);
      assert RecvInv(r1, k);
      RetireInv(r1, k);
    }
  }

  lemma {:induction false} PostFreeInv(r: Receives, k: nat)
    requires RecvInv(r, k)
    ensures RecvInv(PostFree(r, k), k)
    decreases r.retired + Pow2(k) - r.posted
  {
    PostRoom(r, k);
    if Next(r.head, k) != r.tail {
      var r1 := r.(head := Next(r.head, k), posted := r.posted + 1, postRefs := r.postRefs + [r.refs[r.head]]);
      assert r.refs[Slot(r.posted, k)] == 0;
      PostFreeInv(r1, k);
    }
  }

  lemma RepostInv(r: Receives, k: nat)
    requires RecvInv(r, k)
    ensures RecvInv(Repost(r, k), k)
  {
    RetireInv(r, k);
    PostFreeInv(Retire(r, k), k);
  }

  lemma DispatchOneInv(r: Receives, k: nat, delivered: bool)
    requires RecvInv(r, k) && r.dispatch != r.head
    ensures RecvInv(DispatchOne(r, k, delivered), k)
  {
    DispatchOneOk(r, k, delivered);
    var d := r.dispatched;
    forall a: nat | d < a < r.retired + Pow2(k) ensures Slot(a, k) != Slot(d, k) { SlotsDiffer(d, a, k); }
  }

  lemma {:induction false} ProcessInv(r: Receives, k: nat, answers: seq<Answer>)
    requires RecvInv(r, k)
    ensures RecvInv(Process(r, k, answers), k)
    decreases |answers|
  {
    if r.dispatch == r.head || answers == [] || answers[0] == NotYet {
      RepostInv(r, k);
    } else {
      DispatchOneInv(r, k, answers[0].delivered);
      RepostInv(DispatchOne(r, k, answers[0].delivered), k);
      ProcessInv(Repost(DispatchOne(r, k, answers[0].delivered), k), k, answers[1..]);
    }
  }

  lemma DeliveredInv(r: Receives, k: nat, a: nat)
    requires RecvInv(r, k) && r.retired <= a < r.dispatched
    ensures RecvInv(r.(refs := r.refs[Slot(a, k) := 0]), k)
  {
  }

  // ---------- What one call dispatches, retires and posts ----------

  /** The reference count of buffer a, which was dispatched before or by these answers. */
  function RefOf(r: Receives, k: nat, answers: seq<Answer>, a: nat): int
    requires |r.refs| == Pow2(k)
  {
    if a < r.dispatched then r.refs[Slot(a, k)]
    else if a - r.dispatched < |answers| && answers[a - r.dispatched].Received? && !answers[a - r.dispatched].delivered then 1
    else 0
  }

  lemma {:induction false} RetireFacts(r: Receives, k: nat)
    requires RecvOk(r, k)
    ensures var r' := Retire(r, k);
      && r.retired <= r'.retired && (forall a: nat :: r.retired <= a < r'.retired ==> r.refs[Slot(a, k)] == 0)
      && RecvOk(r', k) && (r'.retired == r'.dispatched || r.refs[Slot(r'.retired, k)] != 0)
    decreases r.dispatched - r.retired
  {
    SlotsDiffer(r.retired, r.dispatched, k);
    RetireOk(r, k);
    if r.tail != r.dispatch && r.refs[r.tail] == 0 {
      NextSlot(r.retired, k);
      RetireFacts(r.(tail := Next(r.tail, k), retired := r.retired + 1), k);
    }
  }

  lemma {:induction false} PostFreeFacts(r: Receives, k: nat)
    requires RecvOk(r, k)
    ensures var r' := PostFree(r, k);
      && r' == r.(head := r'.head, posted := r'.posted, postRefs := r'.postRefs)
      && r'.posted == r.retired + Pow2(k) - 1
    decreases r.retired + Pow2(k) - r.posted
  {
    PostRoom(r, k);
    if Next(r.head, k) != r.tail {
      PostFreeFacts(r.(head := Next(r.head, k), posted := r.posted + 1, postRefs := r.postRefs + [r.refs[r.head]]), k);
    }
  }

  /** From r to r', whose dispatched buffers have these reference counts, exactly the oldest unreferenced ones were retired. */
  ghost predicate Tidied(r: Receives, k: nat, answers: seq<Answer>, r': Receives) {
    && RecvOk(r, k) && RecvOk(r', k) && r.retired <= r'.retired && r.dispatched <= r'.dispatched
    && (forall a: nat :: r'.retired <= a < r'.dispatched ==> r'.refs[Slot(a, k)] == RefOf(r, k, answers, a))
    && (forall a: nat :: r.retired <= a < r'.retired ==> RefOf(r, k, answers, a) == 0)
    && (r'.retired == r'.dispatched || r'.refs[Slot(r'.retired, k)] != 0) && r'.posted == r'.retired + Pow2(k) - 1
  }

  lemma RepostFacts(r: Receives, k: nat, answers: seq<Answer>)
    requires RecvOk(r, k)
    ensures var r' := Repost(r, k);
      Tidied(r, k, answers, r') && r'.dispatched == r.dispatched && r'.refs == r.refs && r'.posted >= r.posted
  {
    RetireOk(r, k);
    RetireFacts(r, k);
    PostFreeFacts(Retire(r, k), k);
    RepostOk(r, k);
    hide Retire, PostFree;
  }

  lemma DispatchRefs(r: Receives, r1: Receives, k: nat, answers: seq<Answer>, a: nat)
    requires RecvOk(r, k) && r.dispatch != r.head && answers != [] && answers[0].Received? && r.retired <= a
    requires r1.refs == DispatchOne(r, k, answers[0].delivered).refs && r1.dispatched == r.dispatched + 1
    ensures RefOf(r1, k, answers[1..], a) == RefOf(r, k, answers, a)
  {
    if a < r.dispatched { SlotsDiffer(a, r.dispatched, k); }
  }

  lemma {:induction false} ProcessFacts(r: Receives, k: nat, answers: seq<Answer>)
    requires RecvOk(r, k)
    ensures var r' := Process(r, k, answers);
      && Tidied(r, k, answers, r') && r'.dispatched <= r.dispatched + Leading(answers)
      && (r'.dispatched == r.dispatched + Leading(answers) || r'.dispatched >= r.posted)
    decreases |answers|
  {
    if r.dispatch == r.head || answers == [] || answers[0] == NotYet {
      RepostFacts(r, k, answers);
      SlotsDiffer(r.dispatched, r.posted, k);
    } else {
      var r1 := DispatchOne(r, k, answers[0].delivered);
      DispatchOneOk(r, k, answers[0].delivered);
      RepostFacts(r1, k, answers[1..]);
      var r2 := Repost(r1, k);
      ProcessFacts(r2, k, answers[1..]);
      TidiedTwice(r, k, answers, r1, r2, Process(r2, k, answers[1..]));
    }
  }

  lemma TidiedTwice(r: Receives, k: nat, answers: seq<Answer>, r1: Receives, r2: Receives, r3: Receives)
    requires RecvOk(r, k) && r.dispatch != r.head && answers != [] && answers[0].Received?
    requires r1 == DispatchOne(r, k, answers[0].delivered) && RecvOk(r1, k)
    requires Tidied(r1, k, answers[1..], r2) && r2.dispatched == r1.dispatched && r2.refs == r1.refs
    requires Tidied(r2, k, answers[1..], r3)
    ensures Tidied(r, k, answers, r3)
  {
    forall a: nat | r.retired <= a
      ensures RefOf(r1, k, answers[1..], a) == RefOf(r, k, answers, a) == RefOf(r2, k, answers[1..], a)
    {
      DispatchRefs(r, r1, k, answers, a);
      DispatchRefs(r, r2, k, answers, a);
    }
    assert r1.retired == r.retired && r1.dispatched == r.dispatched + 1;
    hide RefOf, DispatchOne;
  }

  // ---------- Every run of the receive ring ----------

  /** Dispatched buffers were received; a buffer is unreferenced exactly when its delivery is finished. */
  ghost predicate DeliveryOk(s: RecvSys, k: nat)
    requires RecvOk(s.r, k)
  {
    && (forall a: nat :: a < s.r.dispatched ==> a in s.received)
    && (forall a :: a in s.delivered ==> a < s.r.dispatched)
    && (forall a: nat :: a < s.r.retired ==> a in s.delivered)
    && (forall a: nat :: s.r.retired <= a < s.r.dispatched ==> (s.r.refs[Slot(a, k)] == 0 <==> a in s.delivered))
  }

  lemma ProcessDelivery(s: RecvSys, k: nat, answers: seq<Answer>)
    requires RecvOk(s.r, k) && DeliveryOk(s, k)
    ensures var s' := RecvApply(s, k, ProcessReceived(answers)); RecvOk(s'.r, k) && DeliveryOk(s', k)
  {
    ProcessFacts(s.r, k, answers);
    hide Process;
    var s' := RecvApply(s, k, ProcessReceived(answers));
    assert Asked(s.r, s'.r, answers) == s'.r.dispatched - s.r.dispatched;
    forall a: nat | s.r.retired <= a < s'.r.dispatched ensures RefOf(s.r, k, answers, a) == 0 <==> a in s'.delivered {
      if a >= s.r.dispatched { assert answers[a - s.r.dispatched].Received?; }
    }
  }

  lemma DeliveredDelivery(s: RecvSys, k: nat, a: nat)
    requires RecvOk(s.r, k) && DeliveryOk(s, k) && RecvEnabled(s, k, Delivered(a))
    ensures var s' := RecvApply(s, k, Delivered(a)); RecvOk(s'.r, k) && DeliveryOk(s', k)
  {
    forall b: nat | s.r.retired <= b < s.r.dispatched && b != a ensures Slot(b, k) != Slot(a, k) {
      if a < b { SlotsDiffer(a, b, k); } else { SlotsDiffer(b, a, k); }
    }
  }

  lemma RecvStepInv(s: RecvSys, k: nat, step: RecvStep)
    requires RecvInv(s.r, k) && DeliveryOk(s, k) && RecvEnabled(s, k, step)
    ensures RecvInv(RecvApply(s, k, step).r, k) && DeliveryOk(RecvApply(s, k, step), k)
  {
    hide Process, DeliveryOk;
    match step
    case ProcessReceived(answers) =>
      ProcessInv(s.r, k, answers);
      ProcessDelivery(s, k, answers);
    case Delivered(a) =>
      DeliveredInv(s.r, k, a);
      DeliveredDelivery(s, k, a);
  }

  lemma {:induction false} RecvRunInv(s: RecvSys, k: nat, steps: seq<RecvStep>, s': RecvSys)
    requires RecvInv(s.r, k) && DeliveryOk(s, k) && RecvRun(s, k, steps, s')
    ensures RecvInv(s'.r, k) && DeliveryOk(s', k)
    decreases |steps|
  {
    hide RecvInv, DeliveryOk, RecvApply, RecvEnabled;
    if steps != [] {
      RecvStepInv(s, k, steps[0]);
      RecvRunInv(RecvApply(s, k, steps[0]), k, steps[1..], s');
    }
  }

  /**
   In every run the indices stay in cyclic order with at most 2^k - 1 receives posted;
   the i-th dispatch is of the i-th posting, so that every received buffer is
   dispatched once and in order; and a context is posted again only once its previous
   posting was retired and its reference count is 0.
   */
  lemma ReceivedOnceInOrder(k: nat, steps: seq<RecvStep>, s: RecvSys)
    requires RecvRun(InitReceives(k), k, steps, s)
    ensures var r := s.r;
      && r.head == Slot(r.posted, k) && r.dispatch == Slot(r.dispatched, k) && r.tail == Slot(r.retired, k)
      && r.retired <= r.dispatched <= r.posted <= r.retired + Pow2(k) - 1
      && |r.log| == r.dispatched && (forall a :: 0 <= a < |r.log| ==> r.log[a] == Slot(a, k))
      && |r.postRefs| == r.posted && (forall a :: 0 <= a < |r.postRefs| ==> r.postRefs[a] == 0)
      && (r.posted >= Pow2(k) ==> r.posted - Pow2(k) < r.retired)
  {
    RecvRunInv(InitReceives(k), k, steps, s);
  }

  /**
   In every run only buffers that MPI has reported received are dispatched, and only
   buffers whose delivery is finished are posted again.
   */
  lemma OnlyReceivedAreDispatched(k: nat, steps: seq<RecvStep>, s: RecvSys)
    requires RecvRun(InitReceives(k), k, steps, s)
    ensures forall a :: 0 <= a < |s.r.log| ==> a in s.received
    ensures forall a: nat :: a + Pow2(k) <= s.r.posted ==> a in s.received && a in s.delivered
  {
    RecvRunInv(InitReceives(k), k, steps, s);
  }

  /**
   And they all are: a call dispatches every buffer in line, from the first on, that MPI
   reports received, and no other; afterwards the oldest buffer not retired is one whose
   delivery is not finished, and every free context is posted.
   */
  lemma ReceivedAreDispatched(k: nat, steps: seq<RecvStep>, s: RecvSys, answers: seq<Answer>)
    requires RecvRun(InitReceives(k), k, steps, s)
    ensures RecvEnabled(s, k, ProcessReceived(answers))
    ensures var s' := RecvApply(s, k, ProcessReceived(answers));
      && s.r.dispatched <= s'.r.dispatched <= s.r.dispatched + Leading(answers)
      && (s'.r.dispatched == s.r.dispatched + Leading(answers) || s'.r.dispatched >= s.r.posted)
      && (s'.r.retired == s'.r.dispatched || s'.r.retired !in s'.delivered)
      && s'.r.posted == s'.r.retired + Pow2(k) - 1
  {
    RecvRunInv(InitReceives(k), k, steps, s);
    ProcessFacts(s.r, k, answers);
    ProcessDelivery(s, k, answers);
    hide Process, RecvRun;
  }
}
