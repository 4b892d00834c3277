/**
 Completions sent to another core, with flattening: while the completion message
 of a core to its target is waiting to be sent, further completions only bump a
 counter, and are sent in one message later.

 The model follows every completion aimed at one target core: from the cores that
 issue it, through their completion messages and the serialized copies in flight,
 to the target.
 */
module FlattenedCompletions {
  import opened Sums

  // ---------- One completion message ----------

  /** `waiting`: enqueued and not yet marked sent.  `serialized`: its contents have been copied out. */
  datatype Channel = Channel(waiting: bool, serialized: bool, dec: nat, toSend: nat)

  /** Completions recorded in the message and not yet copied out of it. */
  function Pending(ch: Channel): nat {
    (if ch.waiting && !ch.serialized then ch.dec else 0) + ch.toSend
  }

  /** send_completion(dec) to another core. */
  function Sent(ch: Channel, dec: nat): Channel {
    if ch.waiting then ch.(toSend := ch.toSend + 1)
    else Channel(true, false, dec, ch.toSend)
  }

  /** mark_sent on the source core: free the message, and reuse it for what has accumulated. */
  function MarkedSent(ch: Channel): Channel {
    if ch.toSend > 0 then Channel(true, false, ch.toSend, 0)
    else ch.(waiting := false, serialized := false)
  }

  class CompletionMessage {
    var isEnqueued: bool
    var isSent: bool
    var isDelivered: bool
    var dec: nat
    var completesToSend: nat

    ghost function View(): Channel
      reads this
    {
      Channel(isEnqueued && !isSent, isDelivered, dec, completesToSend)
    }

    constructor ()
      ensures View() == Channel(false, false, 0, 0)
    {
      isEnqueued, isSent, isDelivered, dec, completesToSend := false, false, false, 0, 0;
    }

    /** `ok` is the CHECK that nothing was left over when the message is used afresh. */
    method SendCompletion(d: nat) returns (ok: bool)
      requires !isSent && (isDelivered ==> isEnqueued)
      modifies this
      ensures View() == Sent(old(View()), d)
      ensures ok <==> (old(View()).waiting || old(completesToSend) == 0)
      ensures !isSent && (isDelivered ==> isEnqueued)
    {
      ok := true;
      if isEnqueued && !isSent {
        completesToSend := completesToSend + 1;
      } else {
        ok := completesToSend == 0;
        dec := d;
        isEnqueued := true;
      }
    }

    method Serialize() returns (d: nat)
      requires isEnqueued && !isSent && !isDelivered
      modifies this
      ensures View() == old(View()).(serialized := true) && d == old(dec)
      ensures isEnqueued && !isSent
    {
      isDelivered := true;
      d := dec;
    }

    method MarkSent()
      requires isEnqueued && !isSent && isDelivered
      modifies this
      ensures View() == MarkedSent(old(View()))
      ensures !isSent && (isDelivered ==> isEnqueued)
    {
      isSent := true;
      isEnqueued, isSent, isDelivered := false, false, false;
      if completesToSend > 0 {
        dec := completesToSend;
        completesToSend := 0;
        isEnqueued := true;
      }
    }
  }

  // ---------- All completions to one target ----------

  /**
   `channels[c]` is core c's message to the target, `flying` the serialized copies.
   `issued` counts the completions asked for, `applied` those the target has made.
   */
  datatype Flat = Flat(channels: seq<Channel>, flying: seq<nat>, applied: nat, issued: nat, failed: bool)

  function InitFlat(n: nat): Flat {
    Flat(seq(n, _ => Channel(false, false, 0, 0)), [], 0, 0, false)
  }

  datatype Step =
    | Local(k: nat)              // the target completes k of its own
    | Send(c: nat, dec: nat)     // core c sends dec completions
    | Serialize(c: nat)          // core c's message is copied into the network
    | MarkSent(c: nat)           // core c learns that its message was sent
    | Deliver(i: nat)            // copy i reaches the target

  predicate Enabled(f: Flat, step: Step) {
    match step
    case Local(k) => true
    case Send(c, dec) => c < |f.channels|
    case Serialize(c) => c < |f.channels| && f.channels[c].waiting && !f.channels[c].serialized
    case MarkSent(c) => c < |f.channels| && f.channels[c].waiting && f.channels[c].serialized
    case Deliver(i) => i < |f.flying|
  }

  function Apply(f: Flat, step: Step): Flat
    requires Enabled(f, step)
  {
    match step
    case Local(k) => f.(issued := f.issued + k, applied := f.applied + k)
    case Send(c, dec) =>
      f.(channels := f.channels[c := Sent(f.channels[c], dec)], issued := f.issued + dec,
         failed := f.failed || (!f.channels[c].waiting && f.channels[c].toSend != 0))
    case Serialize(c) =>
      f.(channels := f.channels[c := f.channels[c].(serialized := true)], flying := f.flying + [f.channels[c].dec])
    case MarkSent(c) => f.(channels := f.channels[c := MarkedSent(f.channels[c])])
    case Deliver(i) => f.(flying := f.flying[..i] + f.flying[i + 1..], applied := f.applied + f.flying[i])
  }

  /** Does a step issue one completion at a time, or use an idle message? */
  predicate Unit(f: Flat, step: Step) {
    step.Send? && step.c < |f.channels| ==> step.dec == 1 || !f.channels[step.c].waiting
  }

  ghost predicate Run(f: Flat, steps: seq<Step>, f': Flat)
    decreases |steps|
  {
    if steps == [] then f' == f
    else Enabled(f, steps[0]) && Unit(f, steps[0]) && Run(Apply(f, steps[0]), steps[1..], f')
  }

  // ---------- Conservation ----------

  function SumPending(chs: seq<Channel>): nat {
    if chs == [] then 0 else Pending(chs[0]) + SumPending(chs[1..])
  }

  /** Completions that are somewhere between their issuer and the target. */
  function Outstanding(f: Flat): nat {
    Sum(f.flying) + SumPending(f.channels)
  }

  lemma {:induction false} SumPendingUpdate(chs: seq<Channel>, c: nat, ch: Channel)
    requires c < |chs|
    ensures SumPending(chs[c := ch]) + Pending(chs[c]) == SumPending(chs) + Pending(ch)
  {
    if c > 0 {
      SumPendingUpdate(chs[1..], c - 1, ch);
      assert chs[c := ch][1..] == chs[1..][c - 1 := ch];
    } else {
      assert chs[0 := ch][1..] == chs[1..];
    }
  }

  /** An idle message carries nothing; the CHECK of send_completion has not failed. */
  predicate Tidy(f: Flat) {
    !f.failed && forall c :: 0 <= c < |f.channels| ==>
      (!f.channels[c].waiting ==> f.channels[c].toSend == 0) && (f.channels[c].serialized ==> f.channels[c].waiting)
  }

  /** Nothing is lost and nothing is counted twice. */
  predicate Conserved(f: Flat) {
    f.issued == f.applied + Outstanding(f)
  }

  lemma StepConserves(f: Flat, step: Step)
    requires Tidy(f) && Conserved(f) && Enabled(f, step) && Unit(f, step)
    ensures Tidy(Apply(f, step)) && Conserved(Apply(f, step))
  {
    match step
    case Local(k) =>
    case Send(c, dec) => SumPendingUpdate(f.channels, c, Sent(f.channels[c], dec));
    case Serialize(c) =>
      SumPendingUpdate(f.channels, c, f.channels[c].(serialized := true));
      SumAppend(f.flying, [f.channels[c].dec]);
    case MarkSent(c) => SumPendingUpdate(f.channels, c, MarkedSent(f.channels[c]));
    case Deliver(i) => SumRemove(f.flying, i);
  }

  lemma {:induction false} IdlePending(chs: seq<Channel>)
    requires forall c :: 0 <= c < |chs| ==> chs[c] == Channel(false, false, 0, 0)
    ensures SumPending(chs) == 0
  {
    if chs != [] {
      IdlePending(chs[1..]);
    }
  }

  lemma InitConserves(n: nat)
    ensures Tidy(InitFlat(n)) && Conserved(InitFlat(n))
  {
    IdlePending(InitFlat(n).channels);
  }

  lemma {:induction false} RunConserves(f: Flat, steps: seq<Step>, f': Flat)
    requires Tidy(f) && Conserved(f) && Run(f, steps, f')
    ensures Tidy(f') && Conserved(f')
    decreases |steps|
  {
    if steps != [] {
      StepConserves(f, steps[0]);
      RunConserves(Apply(f, steps[0]), steps[1..], f');
    }
  }

  /**
   Over every run of unit completions: the completions applied, those in copies in
   flight and those still recorded in messages add up to the completions issued;
   and the source's CHECK never fails.
   */
  lemma FlatteningConserves(n: nat, steps: seq<Step>, f: Flat)
    requires Run(InitFlat(n), steps, f)
    ensures f.issued == f.applied + Sum(f.flying) + SumPending(f.channels) && !f.failed
  {
    InitConserves(n);
    RunConserves(InitFlat(n), steps, f);
  }

  /** A send conserves exactly when it is a single completion or its message is idle: line 191 adds 1, not dec. */
  lemma SendConservesIff(f: Flat, c: nat, dec: nat)
    requires Tidy(f) && Conserved(f) && c < |f.channels|
    ensures Conserved(Apply(f, Send(c, dec))) <==> (dec == 1 || !f.channels[c].waiting)
  {
    SumPendingUpdate(f.channels, c, Sent(f.channels[c], dec));
  }

  /** One completion is sent from an idle start; of two more, sent in one call behind it, one disappears. */
  lemma LostCompletion(f: Flat)
    requires f == Flat([Channel(true, false, 1, 0)], [], 0, 1, false)
    ensures Run(InitFlat(1), [Send(0, 1)], f)
    ensures Conserved(f) && Enabled(f, Send(0, 2))
    ensures Apply(f, Send(0, 2)).issued == Apply(f, Send(0, 2)).applied + Outstanding(Apply(f, Send(0, 2))) + 1
  {
    OneSent(f);
    hide Run;
    assert f.channels[1..] == [];
    SumPendingUpdate(f.channels, 0, Sent(f.channels[0], 2));
  }

  lemma OneSent(f: Flat)
    requires f == Flat([Channel(true, false, 1, 0)], [], 0, 1, false)
    ensures Run(InitFlat(1), [Send(0, 1)], f)
  {
    assert InitFlat(1).channels == [Channel(false, false, 0, 0)];
    assert Apply(InitFlat(1), Send(0, 1)) == f;
    assert [Send(0, 1)][1..] == [];
    assert Run(f, [], f);
  }
}
