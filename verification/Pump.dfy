/** From the follower's actions to the hook's messages, under a pacing oracle
    (crates/tpf3mp-agent/src/bridge.rs, `pump`). */
module Pump {
  import opened Protocol
  import opened Trace
  import opened HookLink
  import opened Outbox
  import opened Follower
  import Spec = FollowerSpec

  /** What messages tell a game that has run through `executed`: a release stands
      for every step up to it not yet run. */
  function Expand(messages: seq<ToHook>, executed: nat): seq<Action> {
    if messages == [] then []
    else
      var m, rest := messages[0], messages[1..];
      if m.Apply? then [Action.Apply(m.event)] + Expand(rest, executed)
      else if m.Release? then Steps(executed, m.through) + Expand(rest, Max(executed, m.through))
      else Expand(rest, executed)
  }

  /** The last step those messages let the game run. */
  function RunTo(messages: seq<ToHook>, executed: nat): nat {
    if messages == [] then executed
    else RunTo(messages[1..], if messages[0].Release? then Max(executed, messages[0].through) else executed)
  }

  /** Every release goes past the one before. */
  ghost predicate Ascending(messages: seq<ToHook>, executed: nat) {
    messages == []
    || if messages[0].Release? then executed < messages[0].through && Ascending(messages[1..], messages[0].through)
       else Ascending(messages[1..], executed)
  }

  ghost predicate NoneAdjacent(messages: seq<ToHook>) {
    forall i :: 0 <= i < |messages| - 1 ==> !(messages[i].Release? && messages[i + 1].Release?)
  }

  lemma {:induction false} ExpandAppend(a: seq<ToHook>, b: seq<ToHook>, executed: nat)
    ensures Expand(a + b, executed) == Expand(a, executed) + Expand(b, RunTo(a, executed))
    ensures RunTo(a + b, executed) == RunTo(b, RunTo(a, executed))
    ensures Ascending(a + b, executed) <==> Ascending(a, executed) && Ascending(b, RunTo(a, executed))
  {
    if a == [] {
      assert a + b == b;
    } else {
      assert (a + b)[0] == a[0] && (a + b)[1..] == a[1..] + b;
      ExpandAppend(a[1..], b, if a[0].Release? then Max(executed, a[0].through) else executed);
    }
  }

  lemma ExpandOne(m: ToHook, executed: nat)
    ensures Expand([m], executed)
         == if m.Apply? then [Action.Apply(m.event)] else if m.Release? then Steps(executed, m.through) else []
    ensures RunTo([m], executed) == if m.Release? then Max(executed, m.through) else executed
    ensures Ascending([m], executed) <==> (m.Release? ==> executed < m.through)
  {
    assert [m][1..] == [];
  }

  /** The follower `s` became `s2` by handing out just what `put` tells the hook. */
  ghost predicate Pumped(s: Spec.State, s2: Spec.State, put: seq<ToHook>) {
    && Spec.Valid(s2) && Spec.Tip(s2) == Spec.Tip(s) && s2.history == s.history
    && (forall m <- put :: m.Apply? || m.Release?)
    && Spec.Drain(s) == Expand(put, s.executed) + Spec.Drain(s2)
    && RunTo(put, s.executed) == s2.executed
    && Ascending(put, s.executed)
  }

  /** Over several calls the messages join up, and the releases go on rising. */
  lemma PumpedAgain(s: Spec.State, s2: Spec.State, s3: Spec.State, put: seq<ToHook>, more: seq<ToHook>)
    requires Pumped(s, s2, put) && Pumped(s2, s3, more)
    ensures Pumped(s, s3, put + more)
  {
    ExpandAppend(put, more, s.executed);
    Regroup(Expand(put, s.executed), Expand(more, s2.executed), Spec.Drain(s3), []);
  }

  function LargestPayload(queue: seq<Event>): (p: nat)
    ensures forall e <- queue :: PayloadLen(e) <= p
  {
    if queue == [] then 0 else Max(PayloadLen(queue[0]), LargestPayload(queue[1..]))
  }

  /** No step among those taken was taken before it was due. */
  ghost predicate AllDue(taken: seq<Action>, due: nat -> Option<nat>, now: nat) {
    forall a <- taken :: a.Execute? && due(a.step).Some? ==> due(a.step).value <= now
  }

  lemma DueOneMore(taken: seq<Action>, a: Action, due: nat -> Option<nat>, now: nat)
    requires AllDue(taken, due, now)
    requires a.Execute? && due(a.step).Some? ==> due(a.step).value <= now
    ensures AllDue(taken + [a], due, now)
  {
  }

  /** What waits between two rounds of the loop: the steps run but not yet told. */
  ghost predicate Waiting(s: Spec.State, now: Spec.State, put: seq<ToHook>, released: Option<nat>, taken: seq<Action>) {
    && Spec.Valid(now) && Spec.Tip(now) == Spec.Tip(s) && now.history == s.history
    && (forall m <- put :: m.Apply? || m.Release?)
    && Ascending(put, s.executed) && NoneAdjacent(put)
    && (put != [] ==> put[|put| - 1].Apply?)
    && RunTo(put, s.executed) <= now.executed
    && (released.None? ==> RunTo(put, s.executed) == now.executed)
    && (released.Some? ==> released.value == now.executed && RunTo(put, s.executed) < now.executed)
    && taken == Expand(put, s.executed) + Steps(RunTo(put, s.executed), now.executed)
    && Spec.Drain(s) == taken + Spec.Drain(now)
  }

  lemma NothingTakenYet(s: Spec.State)
    requires Spec.Valid(s)
    ensures Waiting(s, s, [], None, [])
  {
    assert Steps(s.executed, s.executed) == [];
  }

  lemma RanOneMore(s: Spec.State, now: Spec.State, put: seq<ToHook>, released: Option<nat>, taken: seq<Action>)
    requires Waiting(s, now, put, released, taken)
    requires Spec.NextStep(now).Some?
    ensures var step := Spec.NextStep(now).value;
            Waiting(s, now.(executed := step), put, Some(step), taken + [Execute(step)])
  {
    var step := Spec.NextStep(now).value;
    Spec.HandOut(now);
    var from := RunTo(put, s.executed);
    assert Steps(from, step) == Steps(from, now.executed) + [Execute(step)];
    assert taken + ([Execute(step)] + Spec.Drain(now.(executed := step))) == taken + [Execute(step)] + Spec.Drain(now.(executed := step));
  }

  function ToldOf(released: Option<nat>): seq<ToHook> {
    if released.Some? then [Release(released.value)] else []
  }

  /** Telling the hook of the steps run so far. */
  lemma Told(s: Spec.State, now: Spec.State, put: seq<ToHook>, released: Option<nat>, taken: seq<Action>)
    requires Waiting(s, now, put, released, taken)
    ensures var all := put + ToldOf(released);
            && Pumped(s, now, all) && NoneAdjacent(all)
            && taken == Expand(all, s.executed)
  {
    if released.Some? {
      ExpandAppend(put, [Release(released.value)], s.executed);
      ExpandOne(Release(released.value), RunTo(put, s.executed));
    } else {
      assert put + [] == put;
    }
  }

  lemma AppliedOneMore(s: Spec.State, now: Spec.State, put: seq<ToHook>, released: Option<nat>, taken: seq<Action>)
    requires Waiting(s, now, put, released, taken)
    requires Spec.NextAction(now).1.Some? && Spec.NextAction(now).1.value.Apply?
    ensures var event := Spec.NextAction(now).1.value.event;
            Waiting(s, Spec.NextAction(now).0, put + ToldOf(released) + [ToHook.Apply(event)], None, taken + [Action.Apply(event)])
  {
    var (next, a) := Spec.NextAction(now);
    var told := put + ToldOf(released);
    var message := ToHook.Apply(a.value.event);
    Told(s, now, put, released, taken);
    Spec.HandOut(now);
    ExpandAppend(told, [message], s.executed);
    ExpandOne(message, RunTo(told, s.executed));
    assert Steps(now.executed, now.executed) == [];
    Associates(taken, [a.value], Spec.Drain(next));
  }

  lemma Regroup<T>(before: seq<T>, put: seq<T>, told: seq<T>, last: seq<T>)
    ensures before + put + told + last == before + (put + told + last)
    ensures last == [] ==> before + put + told == before + (put + told)
    ensures before <= before + put + told && (before + put + told)[|before|..] == put + told
  {
  }

  /** What the next round meets: a step to run when one is due next, otherwise
      an event, otherwise nothing owed. */
  lemma NextRound(now: Spec.State)
    requires Spec.Valid(now)
    ensures var (next, action) := Spec.NextAction(now);
            && Spec.Valid(next) && LargestPayload(next.queue) <= LargestPayload(now.queue)
            && (Spec.NextStep(now).Some? ==>
                  action == Some(Execute(Spec.NextStep(now).value)) && next == now.(executed := Spec.NextStep(now).value))
            && (Spec.NextStep(now).None? && action.Some? ==>
                  action.value.Apply? && |next.queue| < |now.queue|
                  && PayloadLen(action.value.event) <= LargestPayload(now.queue))
            && (action.None? ==> Spec.NextStep(now).None? && Spec.Drain(now) == [] && next == now)
  {
    Spec.HandOut(now);
  }

  // ---- The loop, as a function of what it starts from --------------------------------

  datatype Outcome = Outcome(follower: Spec.State, put: seq<ToHook>, bytes: nat, wait: Option<nat>)

  /** Between two rounds: `put` is told, the steps up to `released` run but not told. */
  datatype Loop = Loop(now: Spec.State, put: seq<ToHook>, bytes: nat, released: Option<nat>)

  function Tell(released: Option<nat>, bytes: nat): nat { bytes + 64 * |ToldOf(released)| }

  function Left(s: Spec.State): nat {
    |s.queue| + if s.executed < s.sealedThrough then s.sealedThrough - s.executed else 0
  }

  /** One round, unless it is the last. */
  function Round(l: Loop, due: nat -> Option<nat>, at: nat): (next: Option<Loop>)
    ensures next.Some? ==> Left(next.value.now) < Left(l.now)
  {
    var step := Spec.NextStep(l.now);
    if OUTBOX_BYTES <= l.bytes then None
    else if step.Some? then
      if due(step.value).Some? && at < due(step.value).value then None
      else Some(Loop(l.now.(executed := step.value), l.put, l.bytes, step))
    else
      match Spec.NextAction(l.now)
      case (next, Some(Apply(event))) =>
        var message := ToHook.Apply(event);
        Some(Loop(next, l.put + ToldOf(l.released) + [message], Tell(l.released, l.bytes) + Weight(message), None))
      case _ => None
  }

  /** What the loop leaves when its last round is over. */
  function Last(l: Loop, due: nat -> Option<nat>): Outcome {
    var step := Spec.NextStep(l.now);
    Outcome(l.now, l.put + ToldOf(l.released), Tell(l.released, l.bytes),
            if OUTBOX_BYTES <= l.bytes || step.None? then None else due(step.value))
  }

  function Rounds(l: Loop, due: nat -> Option<nat>, at: nat): Outcome
    decreases Left(l.now)
  {
    var next := Round(l, due, at);
    if next.None? then Last(l, due) else Rounds(next.value, due, at)
  }

  /** One call, from a follower and the bytes that wait. */
  function PumpOnce(s: Spec.State, bytes: nat, due: nat -> Option<nat>, at: nat): Outcome {
    Rounds(Loop(s, [], bytes, None), due, at)
  }

  /** One round keeps what waits between rounds. */
  lemma RoundKeeps(s: Spec.State, l: Loop, taken: seq<Action>, due: nat -> Option<nat>, at: nat) returns (more: seq<Action>)
    requires Waiting(s, l.now, l.put, l.released, taken) && AllDue(taken, due, at) && Round(l, due, at).Some?
    ensures var m := Round(l, due, at).value;
            Waiting(s, m.now, m.put, m.released, more) && AllDue(more, due, at)
  {
    NextRound(l.now);
    var action := Spec.NextAction(l.now).1.value;
    more := taken + [action];
    DueOneMore(taken, action, due, at);
    if Spec.NextStep(l.now).Some? {
      RanOneMore(s, l.now, l.put, l.released, taken);
    } else {
      AppliedOneMore(s, l.now, l.put, l.released, taken);
    }
  }

  lemma {:induction false} RoundsKeep(s: Spec.State, l: Loop, taken: seq<Action>, due: nat -> Option<nat>, at: nat)
    requires Waiting(s, l.now, l.put, l.released, taken) && AllDue(taken, due, at)
    ensures var r := Rounds(l, due, at);
            && Pumped(s, r.follower, r.put) && NoneAdjacent(r.put)
            && AllDue(Expand(r.put, s.executed), due, at)
    decreases Left(l.now)
  {
    if Round(l, due, at).None? {
      Told(s, l.now, l.put, l.released, taken);
    } else {
      var more := RoundKeeps(s, l, taken, due, at);
      RoundsKeep(s, Round(l, due, at).value, more, due, at);
    }
  }

  /** A call tells the hook exactly the actions it takes from the follower, in the
      canonical order and none before it is due; no two releases in a row, each
      past the one before. */
  lemma PumpRefines(s: Spec.State, bytes: nat, due: nat -> Option<nat>, at: nat)
    requires Spec.Valid(s)
    ensures var r := PumpOnce(s, bytes, due, at);
            && Pumped(s, r.follower, r.put) && NoneAdjacent(r.put)
            && AllDue(Expand(r.put, s.executed), due, at)
  {
    NothingTakenYet(s);
    RoundsKeep(s, Loop(s, [], bytes, None), [], due, at);
  }

  /** What is within the bound between two rounds. */
  ghost predicate Bounded(l: Loop, bound: nat) {
    && Spec.Valid(l.now) && l.bytes <= bound && (l.released.Some? ==> l.bytes < OUTBOX_BYTES)
    && OUTBOX_BYTES - 1 + 128 + LargestPayload(l.now.queue) <= bound
  }

  lemma RoundBounded(l: Loop, due: nat -> Option<nat>, at: nat, bound: nat)
    requires Bounded(l, bound) && Round(l, due, at).Some?
    ensures Bounded(Round(l, due, at).value, bound)
  {
    NextRound(l.now);
  }

  /** The bytes that wait pass the bound by one event and the release before it
      at most. */
  lemma {:induction false} RoundsWithinBound(l: Loop, due: nat -> Option<nat>, at: nat, bound: nat)
    requires Bounded(l, bound)
    ensures Rounds(l, due, at).bytes <= bound
    decreases Left(l.now)
  {
    if Round(l, due, at).Some? {
      RoundBounded(l, due, at, bound);
      RoundsWithinBound(Round(l, due, at).value, due, at, bound);
    }
  }

  lemma PumpWithinBound(s: Spec.State, bytes: nat, due: nat -> Option<nat>, at: nat)
    requires Spec.Valid(s)
    ensures var r := PumpOnce(s, bytes, due, at);
            r.bytes <= Max(bytes, OUTBOX_BYTES - 1 + 128 + LargestPayload(s.queue))
  {
    RoundsWithinBound(Loop(s, [], bytes, None), due, at, Max(bytes, OUTBOX_BYTES - 1 + 128 + LargestPayload(s.queue)));
  }

  /** The count of bytes that a call comes to is what then waits, message by message. */
  lemma {:induction false} RoundsCount(l: Loop, outbox: seq<ToHook>, due: nat -> Option<nat>, at: nat)
    requires l.bytes == Weights(outbox + l.put)
    ensures var r := Rounds(l, due, at); r.bytes == Weights(outbox + r.put)
    decreases Left(l.now)
  {
    var next := Round(l, due, at);
    TellCounts(outbox + l.put, l.released);
    Associates(outbox, l.put, ToldOf(l.released));
    if next.Some? {
      if next.value.put != l.put {
        var told, message := l.put + ToldOf(l.released), next.value.put[|next.value.put| - 1];
        WeightsAppend(outbox + told, [message]);
        Associates(outbox, told, [message]);
      }
      RoundsCount(next.value, outbox, due, at);
    }
  }

  lemma TellCounts(messages: seq<ToHook>, released: Option<nat>)
    ensures Tell(released, Weights(messages)) == Weights(messages + ToldOf(released))
  {
    WeightsAppend(messages, ToldOf(released));
  }

  /** So the bytes that wait, each message's payload or path and 64 for each message, pass
      the bound by one event and the release before it at most. */
  lemma CarriedWithinBound(s: Spec.State, outbox: seq<ToHook>, due: nat -> Option<nat>, at: nat)
    requires Spec.Valid(s)
    ensures var all := outbox + PumpOnce(s, Weights(outbox), due, at).put;
            var c := AllCarried(all);
            |c.payloads| + |c.paths| + c.said + 64 * |all|
            <= Max(Weights(outbox), OUTBOX_BYTES - 1 + 128 + LargestPayload(s.queue))
  {
    assert outbox + [] == outbox;
    RoundsCount(Loop(s, [], Weights(outbox), None), outbox, due, at);
    PumpWithinBound(s, Weights(outbox), due, at);
    WeighWhatTheyCarry(outbox + PumpOnce(s, Weights(outbox), due, at).put);
  }

  /** A call stops for a reason: the hook is behind, the next step is not due
      (and the call says when it is), or nothing is owed. */
  lemma {:induction false} StopsForAReason(l: Loop, due: nat -> Option<nat>, at: nat)
    requires Spec.Valid(l.now)
    ensures var r := Rounds(l, due, at);
            match r.wait
            case Some(time) => Spec.NextStep(r.follower).Some? && due(Spec.NextStep(r.follower).value) == r.wait && at < time
            case None => OUTBOX_BYTES <= r.bytes || Spec.Drain(r.follower) == []
    decreases Left(l.now)
  {
    NextRound(l.now);
    if Round(l, due, at).Some? {
      StopsForAReason(Round(l, due, at).value, due, at);
    }
  }

  // ---- The loop itself -----------------------------------------------------------------

  /** `PumpOnce`, as a loop over the follower and the outbox. `due` may answer as it
      likes. The result is the time to call again at, if waiting for a step is why
      the call ended. */
  method Pump(follower: TurnFollower, due: nat -> Option<nat>, now: nat, out: Box) returns (wait: Option<nat>)
    requires out.Valid()
    modifies follower, out
    ensures out.Valid()
    ensures var r := PumpOnce(old(follower.Abs()), old(out.bytes), due, now);
            follower.Abs() == r.follower && out.messages == old(out.messages) + r.put && out.bytes == r.bytes && wait == r.wait
  {
    ghost var result := PumpOnce(follower.Abs(), out.bytes, due, now);
    ghost var put: seq<ToHook> := [];
    var released, over := None, false;
    wait := None;
    assert out.messages + [] == out.messages;
    while !over
      invariant out.Valid() && out.messages == old(out.messages) + put
      invariant var l := Loop(follower.Abs(), put, out.bytes, released);
                Rounds(l, due, now) == result && (over ==> Round(l, due, now).None? && wait == Last(l, due).wait)
      decreases !over, Left(follower.Abs())
    {
      ghost var more;
      over, released, wait, more := OneRound(follower, due, now, out, released, put);
      Associates(old(out.messages), put, more);
      put := put + more;
    }
    PutRelease(out, released);
    Associates(old(out.messages), put, ToldOf(released));
  }

  /** One round of the loop. */
  method OneRound(follower: TurnFollower, due: nat -> Option<nat>, now: nat, out: Box, released: Option<nat>, ghost put: seq<ToHook>)
    returns (over: bool, still: Option<nat>, wait: Option<nat>, ghost more: seq<ToHook>)
    requires out.Valid()
    modifies follower, out
    ensures out.Valid() && out.messages == old(out.messages) + more
    ensures var l := Loop(old(follower.Abs()), put, old(out.bytes), released);
            match Round(l, due, now)
            case None => over && Loop(follower.Abs(), put + more, out.bytes, still) == l && wait == Last(l, due).wait
            case Some(m) => !over && Loop(follower.Abs(), put + more, out.bytes, still) == m
  {
    over, still, wait, more := true, released, None, [];
    assert out.messages + [] == out.messages && put + [] == put;
    var full := out.IsFull();
    if full {
      // Back-pressure: what is left stays with the follower.
      return;
    }
    var next := follower.NextStep();
    if next.Some? {
      var at := due(next.value);
      if at.Some? && now < at.value {
        wait := at;
        return;
      }
      var _ := follower.NextAction();
      return false, next, None, [];
    }
    var action := follower.NextAction();
    match action {
      case Some(Apply(event)) =>
        PutEvent(out, released, event);
        more := ToldOf(released) + [ToHook.Apply(event)];
        Associates(old(out.messages), ToldOf(released), [ToHook.Apply(event)]);
        Associates(put, ToldOf(released), [ToHook.Apply(event)]);
        over, still := false, None;
      case Some(Execute(step)) =>
        // Never: `NextStep` would have named it.
        assert false;
      case None =>
    }
  }

  /** The steps run so far are told. */
  method PutRelease(out: Box, released: Option<nat>)
    requires out.Valid()
    modifies out
    ensures out.Valid() && out.messages == old(out.messages) + ToldOf(released) && out.bytes == Tell(released, old(out.bytes))
  {
    if released.Some? {
      out.PushBack(Release(released.value));
    } else {
      assert out.messages + [] == out.messages;
    }
  }

  /** An event follows the steps before it. */
  method PutEvent(out: Box, released: Option<nat>, event: Event)
    requires out.Valid()
    modifies out
    ensures out.Valid() && out.messages == old(out.messages) + ToldOf(released) + [ToHook.Apply(event)]
    ensures out.bytes == Tell(released, old(out.bytes)) + Weight(ToHook.Apply(event))
  {
    PutRelease(out, released);
    out.PushBack(ToHook.Apply(event));
  }
}
