/**
 The part of a GlobalCompletionEvent that lives on one core, and the message
 handlers that change it.  Each handler is given twice: as a function on the
 fields (used by the protocol model in GceProtocol.dfy) and as a method of the
 class, proved to compute that function.
 */
module GceCore {
  import opened Basics

  type Core = nat

  /** Core 0 keeps the barrier counter. */
  const MASTER: Core := 0

  /** The fields of one core's instance. `cv` and `waking` are waiter lists, newest waiter first. */
  datatype Local = Local(
    count: int,
    inProgress: bool,
    coresOut: int,
    wakingOut: int,
    cv: seq<Task>,
    waking: seq<Task>)

  /** What enroll does before it has to talk to the master. */
  function Enrolled(l: Local, inc: int): Local {
    var l' := l.(count := l.count + inc);
    if l'.count == inc then l'.(inProgress := true) else l'
  }

  /** Did this enroll take the count from zero, so that the barrier must be cancelled? */
  predicate MustCancel(l: Local, inc: int) {
    l.count + inc == inc
  }

  /** The cancel handler on the master; the reply is the new `coresOut`. */
  function BarrierCancelled(l: Local): Local {
    l.(coresOut := l.coresOut + 1)
  }

  function Completed(l: Local, dec: int): Local {
    l.(count := l.count - dec)
  }

  /** The handler on the master for a core that ran out of work. `cores` is the number of cores. */
  function BarrierEntered(l: Local, cores: nat): Local {
    var l' := l.(coresOut := l.coresOut - 1);
    if l'.coresOut == 0 then l'.(wakingOut := cores) else l'
  }

  /** Does this entry complete the barrier? */
  predicate CompletesBarrier(l: Local) {
    l.coresOut - 1 == 0
  }

  /** The reset handler: capture the waiters, then clear the instance. */
  function WasReset(l: Local): Local {
    l.(waking := l.cv, count := 0, cv := [], coresOut := 0, inProgress := false)
  }

  function ResetAcked(l: Local): Local {
    l.(wakingOut := l.wakingOut - 1)
  }

  /** The wake handler wakes everything in `waking`. */
  function Woke(l: Local): Local {
    l.(waking := [])
  }

  function Suspended(l: Local, t: Task): Local {
    l.(cv := [t] + l.cv)
  }

  /** One core's instance. */
  class GlobalCompletionEvent {
    var count: int
    var eventInProgress: bool
    var coresOut: int
    var temporaryWakingCoresOut: int
    var cv: seq<Task>
    var temporaryWakingCv: seq<Task>

    ghost function View(): Local
      reads this
    {
      Local(count, eventInProgress, coresOut, temporaryWakingCoresOut, cv, temporaryWakingCv)
    }

    constructor ()
      ensures View() == Local(0, false, 0, 0, [], [])
    {
      count, eventInProgress, coresOut := 0, false, 0;
      temporaryWakingCoresOut, cv, temporaryWakingCv := 0, [], [];
    }

    /** `reset`: the state in which a call to wait falls through. */
    method Reset()
      modifies this
      ensures View() == old(View()).(count := 0, inProgress := false, coresOut := 0, cv := [])
    {
      count := 0;
      cv := [];
      coresOut := 0;
      eventInProgress := false;
    }

    /** First segment of enroll, up to the blocking call to the master. */
    method Enroll(inc: int) returns (cancel: bool)
      requires inc >= 1
      modifies this
      ensures View() == Enrolled(old(View()), inc)
      ensures cancel == MustCancel(old(View()), inc)
    {
      count := count + inc;
      cancel := count == inc;
      if cancel {
        eventInProgress := true;
      }
    }

    method CancelBarrier() returns (co: int)
      modifies this
      ensures View() == BarrierCancelled(old(View())) && co == coresOut
    {
      coresOut := coresOut + 1;
      co := coresOut;
    }

    /** `enter` says whether a barrier entry has to be sent to the master. */
    method Complete(dec: int) returns (enter: bool)
      modifies this
      ensures View() == Completed(old(View()), dec) && (enter <==> count == 0)
    {
      count := count - dec;
      enter := count == 0;
    }

    /** `resetAll` asks for a reset message to every core; `ok` is the CHECK on the master's own count. */
    method EnterBarrier(cores: nat) returns (resetAll: bool, ok: bool)
      modifies this
      ensures View() == BarrierEntered(old(View()), cores)
      ensures resetAll == CompletesBarrier(old(View()))
      ensures ok <==> (resetAll ==> old(count) == 0)
    {
      coresOut := coresOut - 1;
      resetAll, ok := false, true;
      if coresOut == 0 {
        ok := count == 0;
        temporaryWakingCoresOut := cores;
        resetAll := true;
      }
    }

    method HandleReset() returns (ok: bool)
      modifies this
      ensures View() == WasReset(old(View())) && (ok <==> old(count) == 0)
    {
      ok := count == 0;
      temporaryWakingCv := cv;
      Reset();
    }

    method HandleResetAck() returns (wakeAll: bool)
      modifies this
      ensures View() == ResetAcked(old(View())) && (wakeAll <==> temporaryWakingCoresOut == 0)
    {
      temporaryWakingCoresOut := temporaryWakingCoresOut - 1;
      wakeAll := temporaryWakingCoresOut == 0;
    }

    /** Pops the captured waiters one by one, handing each to the scheduler. */
    method HandleWake() returns (woken: seq<Task>)
      modifies this
      ensures View() == Woke(old(View())) && woken == old(temporaryWakingCv)
    {
      woken := [];
      while temporaryWakingCv != []
        invariant woken + temporaryWakingCv == old(temporaryWakingCv)
        invariant View() == old(View()).(waking := temporaryWakingCv)
        decreases |temporaryWakingCv|
      {
        woken := woken + [temporaryWakingCv[0]];
        temporaryWakingCv := temporaryWakingCv[1..];
      }
    }

    /** First segment of wait: suspend at once, or ask the master for `coresOut`. */
    method Wait(t: Task) returns (probe: bool)
      modifies this
      ensures probe == !old(eventInProgress)
      ensures View() == if probe then old(View()) else Suspended(old(View()), t)
    {
      probe := !eventInProgress;
      if !probe {
        cv := [t] + cv;
      }
    }

    /** Second segment of wait, when the master has answered. */
    method WaitProbed(t: Task, co: int)
      modifies this
      ensures View() == if co > 0 then Suspended(old(View()), t) else old(View())
    {
      if co > 0 {
        cv := [t] + cv;
      }
    }
  }
}
