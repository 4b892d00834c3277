/**
 The GlobalCompletionEvent protocol on all cores.

 A step runs one task segment, up to its next suspension point, or delivers one
 message.  Messages are delivered in any order.  A blocking call has exactly one
 request or reply in flight, so the state of a blocked task records it; the
 asynchronous messages are a bag.
 */
module GceProtocol {
  import opened Basics
  import opened GceCore

  /** The asynchronous messages: barrier entry, reset, reset acknowledgement, wake. */
  datatype Msg = Enter | Reset(to: Core) | ResetAck | Wake(to: Core)

  /** Why a task is blocked, and on which core.  The request or reply of a blocking call is part of it. */
  datatype Block =
    | Cancelling(at: Core)                                       // cancel request in flight to the master
    | Cancelled(at: Core, co: int)                               // its reply in flight back
    | Broadcasting(at: Core, todo: set<Core>, missing: int)      // event_in_progress broadcast under way
    | Probing(at: Core)                                          // wait's request for coresOut
    | Probed(at: Core, co: int)                                  // its reply
    | OnCv(at: Core)                                             // suspended on the waiter list

  /** Between phases, in a phase, or between detection and the last reset acknowledgement. */
  datatype Stage = Idle | Active | Resetting

  datatype Sys = Sys(
    // the real state
    locals: seq<Local>,
    completing: seq<nat>,          // completions sent to each core and not yet applied there
    net: multiset<Msg>,
    blocked: map<Task, Block>,
    failed: bool,                  // some CHECK of the source has failed
    // who holds which uncompleted enrollments (the causality rule is about these)
    held: seq<multiset<Task>>,
    // history
    counted: set<Core>,            // cores whose cancel reached the master and that have not gone idle since
    rank: seq<nat>, clock: nat,    // when each core last got its first work
    via: map<Task, Core>,          // for a cancelling task: a core where it held work when it enrolled
    rogue: set<Core>,              // cores that got their first work by an enroll that breaks the rule
    opener: Option<Task>,          // the task opening the phase, until its enroll returns
    stage: Stage,
    detected: nat,                 // completed phases
    resets: seq<nat>,              // resets done by each core
    captured: seq<nat>,            // the phase whose waiters each core's waking list holds
    since: map<Task, nat>)         // the last phase opened when a task was suspended

  /** Every sequence of the state has one entry per core. */
  predicate Shape(s: Sys) {
    && |s.locals| >= 1
    && |s.completing| == |s.held| == |s.rank| == |s.resets| == |s.captured| == |s.locals|
  }

  function Cores(s: Sys): nat {
    |s.locals|
  }

  function InitSys(n: nat): Sys {
    Sys(seq(n, _ => Local(0, false, 0, 0, [], [])), seq(n, _ => 0), multiset{}, map[], false,
        seq(n, _ => multiset{}), {}, seq(n, _ => 0), 0, map[], {}, None, Idle, 0,
        seq(n, _ => 0), seq(n, _ => 0), map[])
  }

  /** The phases opened so far. */
  function Opened(s: Sys): nat {
    s.detected + if s.stage == Active then 1 else 0
  }

  function Unblock(s: Sys, t: Task): Sys {
    s.(blocked := s.blocked - {t})
  }

  /** CHECK_GT(count, 0), just before enroll returns. */
  function Return(s: Sys, t: Task, c: Core): Sys
    requires c < Cores(s)
  {
    Unblock(s, t).(failed := s.failed || s.locals[c].count <= 0)
  }

  /** The opening task is back from its broadcast: CHECK(event_in_progress), then return. */
  function ReturnOpened(s: Sys, t: Task, c: Core): Sys
    requires c < Cores(s)
  {
    Return(s.(failed := s.failed || !s.locals[c].inProgress), t, c).(opener := None)
  }

  /** The rest of enroll, once the master's reply `co` is known: return, or broadcast that an event is in progress. */
  function FinishEnroll(s: Sys, t: Task, c: Core, co: int): Sys
    requires c < Cores(s)
  {
    if co == 1 then
      var s1 := s.(locals := s.locals[c := s.locals[c].(inProgress := true)]);
      if Cores(s) == 1 then ReturnOpened(s1, t, c)
      else s1.(blocked := s.blocked[t := Broadcasting(c, CoreSet(Cores(s)) - {c}, Cores(s) - 1)])
    else Return(s, t, c)
  }

  /** The cancel request of a task on core c runs on the master. */
  function CancelAtMaster(s: Sys, c: Core): Sys
    requires Shape(s)
  {
    s.(locals := s.locals[MASTER := BarrierCancelled(s.locals[MASTER])],
       counted := s.counted + {c})
  }

  /**
   The rule for enrolling: an enroll opens a new phase; or its task holds an uncompleted
   enrollment; or the barrier counter is positive, and the core has work already or is
   the master, so that nothing has to reach the counter before the next entry.
   */
  predicate MayEnroll(s: Sys, t: Task, c: Core, via: Core)
    requires Shape(s) && c < Cores(s)
  {
    || s.stage == Idle
    || (via < Cores(s) && t in s.held[via])
    || (s.locals[MASTER].coresOut > 0 && (c == MASTER || s.locals[c].count > 0))
  }

  /** Task t calls enroll(inc) on core c; `via` is a core where it already holds an enrollment, if it does. */
  function DoEnroll(s: Sys, t: Task, c: Core, inc: nat, via: Core): Sys
    requires Shape(s) && c < Cores(s)
  {
    if inc == 0 then s else
    var l := s.locals[c];
    var s1 := s.(locals := s.locals[c := Enrolled(l, inc)],
                 held := s.held[c := s.held[c][t := s.held[c][t] + inc]]);
    if !MustCancel(l, inc) then s1 else
    var s2 := s1.(rank := s.rank[c := s.clock], clock := s.clock + 1, via := s.via[t := via],
                  rogue := if MayEnroll(s, t, c, via) then s.rogue else s.rogue + {c},
                  opener := if s.stage == Idle then Some(t) else s.opener,
                  stage := if s.stage == Idle then Active else s.stage);
    if c == MASTER then
      FinishEnroll(CancelAtMaster(s2, c), t, c, s2.locals[MASTER].coresOut + 1)
    else
      s2.(blocked := s.blocked[t := Cancelling(c)])
  }

  function DoDeliverCancel(s: Sys, t: Task): Sys
    requires Shape(s) && t in s.blocked && s.blocked[t].Cancelling? && s.blocked[t].at < Cores(s)
  {
    var c := s.blocked[t].at;
    var s1 := CancelAtMaster(s, c);
    s1.(blocked := s.blocked[t := Cancelled(c, s1.locals[MASTER].coresOut)])
  }

  function DoDeliverCancelled(s: Sys, t: Task): Sys
    requires Shape(s) && t in s.blocked && s.blocked[t].Cancelled? && s.blocked[t].at < Cores(s)
  {
    FinishEnroll(s, t, s.blocked[t].at, s.blocked[t].co)
  }

  function DoDeliverProgress(s: Sys, t: Task, d: Core): Sys
    requires Shape(s) && t in s.blocked && s.blocked[t].Broadcasting? && d < Cores(s)
  {
    var b := s.blocked[t];
    s.(locals := s.locals[d := s.locals[d].(inProgress := true)],
       blocked := s.blocked[t := b.(todo := b.todo - {d})])
  }

  function DoDeliverProgressAck(s: Sys, t: Task): Sys
    requires t in s.blocked && s.blocked[t].Broadcasting? && s.blocked[t].at < Cores(s)
  {
    var b := s.blocked[t];
    if b.missing - 1 == 0 then ReturnOpened(s, t, b.at)
    else s.(blocked := s.blocked[t := b.(missing := b.missing - 1)])
  }

  /** Task t hands one of its enrollments on core c to task u, for instance by spawning u. */
  function DoHandOff(s: Sys, t: Task, u: Task, c: Core): Sys
    requires Shape(s) && c < Cores(s) && t in s.held[c]
  {
    s.(held := s.held[c := s.held[c] - multiset{t} + multiset{u}])
  }

  /** complete(k) runs on core d: the count drops, and a core without work enters the barrier. */
  function CompleteOn(s: Sys, d: Core, k: nat): Sys
    requires Shape(s) && d < Cores(s)
  {
    var s1 := s.(locals := s.locals[d := Completed(s.locals[d], k)]);
    if s1.locals[d].count == 0
    then s1.(net := s.net + multiset{Enter}, counted := s.counted - {d})
    else s1
  }

  /** Task t, running on core c, completes k of its enrollments on core d, locally or by a message. */
  function DoComplete(s: Sys, t: Task, c: Core, d: Core, k: nat): Sys
    requires Shape(s) && d < Cores(s) && k <= s.held[d][t]
  {
    var s1 := s.(held := s.held[d := s.held[d][t := s.held[d][t] - k]]);
    if c == d then CompleteOn(s1, d, k)
    else s1.(completing := s.completing[d := s.completing[d] + k])
  }

  /** A completion message for k completions reaches core d. */
  function DoDeliverCompletion(s: Sys, d: Core, k: nat): Sys
    requires Shape(s) && d < Cores(s) && k <= s.completing[d]
  {
    CompleteOn(s.(completing := s.completing[d := s.completing[d] - k]), d, k)
  }

  /** One reset message for each of the cores 0 .. n-1. */
  function ResetToAll(n: nat): (r: multiset<Msg>)
    ensures forall c: Core :: r[Reset(c)] == (if c < n then 1 else 0) && r[Wake(c)] == 0
    ensures r[Enter] == 0 && r[ResetAck] == 0
  {
    if n == 0 then multiset{} else ResetToAll(n - 1) + multiset{Reset(n - 1)}
  }

  /** One wake message for each of the cores 0 .. n-1. */
  function WakeToAll(n: nat): (r: multiset<Msg>)
    ensures forall c: Core :: r[Wake(c)] == (if c < n then 1 else 0) && r[Reset(c)] == 0
    ensures r[Enter] == 0 && r[ResetAck] == 0
  {
    if n == 0 then multiset{} else WakeToAll(n - 1) + multiset{Wake(n - 1)}
  }

  function DoDeliverEnter(s: Sys): Sys
    requires Shape(s)
  {
    var l := s.locals[MASTER];
    var s1 := s.(locals := s.locals[MASTER := BarrierEntered(l, Cores(s))], net := s.net - multiset{Enter});
    if CompletesBarrier(l) then
      s1.(net := s1.net + ResetToAll(Cores(s)), failed := s.failed || l.count != 0,
          stage := Resetting, detected := s.detected + 1)
    else s1
  }

  function DoDeliverReset(s: Sys, c: Core): Sys
    requires Shape(s) && c < Cores(s)
  {
    s.(locals := s.locals[c := WasReset(s.locals[c])],
       net := s.net - multiset{Reset(c)} + multiset{ResetAck},
       failed := s.failed || s.locals[c].count != 0,
       resets := s.resets[c := s.resets[c] + 1],
       captured := s.captured[c := s.resets[c] + 1])
  }

  function DoDeliverResetAck(s: Sys): Sys
    requires Shape(s)
  {
    var s1 := s.(locals := s.locals[MASTER := ResetAcked(s.locals[MASTER])], net := s.net - multiset{ResetAck});
    if s1.locals[MASTER].wakingOut == 0
    then s1.(net := s1.net + WakeToAll(Cores(s)), stage := Idle)
    else s1
  }

  /** Every captured waiter of core c becomes runnable. */
  function DoDeliverWake(s: Sys, c: Core): Sys
    requires Shape(s) && c < Cores(s)
  {
    s.(locals := s.locals[c := Woke(s.locals[c])], net := s.net - multiset{Wake(c)},
       blocked := s.blocked - (set t | t in s.locals[c].waking))
  }

  function SuspendOn(s: Sys, t: Task, c: Core): Sys
    requires Shape(s) && c < Cores(s)
  {
    s.(locals := s.locals[c := Suspended(s.locals[c], t)], blocked := s.blocked[t := OnCv(c)],
       since := s.since[t := Opened(s)])
  }

  /** Task t calls wait on core c.  On the master the query for coresOut is a local call. */
  function DoWait(s: Sys, t: Task, c: Core): Sys
    requires Shape(s) && c < Cores(s)
  {
    if s.locals[c].inProgress then SuspendOn(s, t, c)
    else if c == MASTER then
      if s.locals[MASTER].coresOut > 0 then SuspendOn(s, t, c) else s
    else s.(blocked := s.blocked[t := Probing(c)])
  }

  function DoDeliverProbe(s: Sys, t: Task): Sys
    requires Shape(s) && t in s.blocked && s.blocked[t].Probing?
  {
    s.(blocked := s.blocked[t := Probed(s.blocked[t].at, s.locals[MASTER].coresOut)])
  }

  function DoDeliverProbed(s: Sys, t: Task): Sys
    requires Shape(s) && t in s.blocked && s.blocked[t].Probed? && s.blocked[t].at < Cores(s)
  {
    var b := s.blocked[t];
    if b.co > 0 then SuspendOn(s, t, b.at) else Unblock(s, t)
  }

  datatype Step =
    | EnrollStep(t: Task, c: Core, inc: nat, via: Core)
    | DeliverCancel(t: Task)
    | DeliverCancelled(t: Task)
    | DeliverProgress(t: Task, d: Core)
    | DeliverProgressAck(t: Task)
    | HandOff(t: Task, u: Task, c: Core)
    | CompleteStep(t: Task, c: Core, d: Core, k: nat)
    | DeliverCompletion(d: Core, k: nat)
    | DeliverEnter
    | DeliverReset(c: Core)
    | DeliverResetAck
    | DeliverWake(c: Core)
    | WaitStep(t: Task, c: Core)
    | DeliverProbe(t: Task)
    | DeliverProbed(t: Task)

  predicate Enabled(s: Sys, step: Step)
  {
    && Shape(s)
    && match step
       case EnrollStep(t, c, inc, via) => c < Cores(s) && t !in s.blocked && (inc == 0 || MayEnroll(s, t, c, via))
       case DeliverCancel(t) => t in s.blocked && s.blocked[t].Cancelling? && s.blocked[t].at < Cores(s)
       case DeliverCancelled(t) => t in s.blocked && s.blocked[t].Cancelled? && s.blocked[t].at < Cores(s)
       case DeliverProgress(t, d) =>
         t in s.blocked && s.blocked[t].Broadcasting? && d in s.blocked[t].todo && d < Cores(s)
       case DeliverProgressAck(t) =>
         && t in s.blocked && s.blocked[t].Broadcasting? && s.blocked[t].at < Cores(s)
         && s.blocked[t].missing > |s.blocked[t].todo|
       case HandOff(t, u, c) => c < Cores(s) && t !in s.blocked && t in s.held[c]
       case CompleteStep(t, c, d, k) =>
         c < Cores(s) && d < Cores(s) && t !in s.blocked && 1 <= k <= s.held[d][t]
       case DeliverCompletion(d, k) => d < Cores(s) && 1 <= k <= s.completing[d]
       case DeliverEnter => Enter in s.net
       case DeliverReset(c) => c < Cores(s) && Reset(c) in s.net
       case DeliverResetAck => ResetAck in s.net
       case DeliverWake(c) => c < Cores(s) && Wake(c) in s.net
       case WaitStep(t, c) => c < Cores(s) && t !in s.blocked
       case DeliverProbe(t) => t in s.blocked && s.blocked[t].Probing?
       case DeliverProbed(t) => t in s.blocked && s.blocked[t].Probed? && s.blocked[t].at < Cores(s)
  }

  function Apply(s: Sys, step: Step): Sys
    requires Enabled(s, step)
  {
    match step
    case EnrollStep(t, c, inc, via) => DoEnroll(s, t, c, inc, via)
    case DeliverCancel(t) => DoDeliverCancel(s, t)
    case DeliverCancelled(t) => DoDeliverCancelled(s, t)
    case DeliverProgress(t, d) => DoDeliverProgress(s, t, d)
    case DeliverProgressAck(t) => DoDeliverProgressAck(s, t)
    case HandOff(t, u, c) => DoHandOff(s, t, u, c)
    case CompleteStep(t, c, d, k) => DoComplete(s, t, c, d, k)
    case DeliverCompletion(d, k) => DoDeliverCompletion(s, d, k)
    case DeliverEnter => DoDeliverEnter(s)
    case DeliverReset(c) => DoDeliverReset(s, c)
    case DeliverResetAck => DoDeliverResetAck(s)
    case DeliverWake(c) => DoDeliverWake(s, c)
    case WaitStep(t, c) => DoWait(s, t, c)
    case DeliverProbe(t) => DoDeliverProbe(s, t)
    case DeliverProbed(t) => DoDeliverProbed(s, t)
  }

  /** s' is reached from s by some run. */
  ghost predicate Run(s: Sys, steps: seq<Step>, s': Sys)
    decreases |steps|
  {
    if steps == [] then s' == s
    else Enabled(s, steps[0]) && Run(Apply(s, steps[0]), steps[1..], s')
  }

  ghost predicate Reachable(n: nat, s: Sys) {
    exists steps: seq<Step> :: Run(InitSys(n), steps, s)
  }
}
