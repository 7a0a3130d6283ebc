/** The follower itself, updated in place: each method is its function in
    `FollowerSpec`. */
module Follower {
  import opened Protocol
  import opened Trace
  import Spec = FollowerSpec

  class TurnFollower {
    var nextTurn: u64
    var nextEvent: u64
    var sealedThrough: u64
    var speed: nat
    var executed: nat
    var queue: seq<Event>
    var queuedBytes: nat
    var history: u64

    ghost function Abs(): Spec.State
      reads this
    {
      Spec.State(nextTurn, nextEvent, sealedThrough, speed, executed, queue, queuedBytes, history)
    }

    constructor (start: TurnStart)
      ensures Abs() == Spec.New(start)
    {
      nextTurn, nextEvent, sealedThrough := start.nextTurn, start.nextEvent, start.sealedThrough;
      speed, executed := Spec.NORMAL_SPEED, start.sealedThrough;
      queue, queuedBytes, history := [], 0, start.history;
    }

    /** Takes over a stream whose frontier is this follower's; refuses any other. */
    method Restart(start: TurnStart) returns (r: Result<(), Spec.FollowError>)
      modifies this`history
      ensures match Spec.Restart(old(Abs()), start)
              case Ok(s) => r.Ok? && Abs() == s
              case Err(e) => r == Err(e) && Abs() == old(Abs())
    {
      if start.nextTurn != nextTurn {
        return Err(Spec.RestartMismatch(nextTurn, start.nextTurn));
      }
      if start.nextEvent != nextEvent {
        return Err(Spec.EventGap(nextEvent, start.nextEvent));
      }
      if start.sealedThrough != sealedThrough {
        return Err(Spec.RestartFrontier(sealedThrough, start.sealedThrough));
      }
      history := start.history;
      return Ok(());
    }

    /** All of the turn or none of it: it is checked before a field changes. */
    method Accept(turn: Turn) returns (r: Result<(), Spec.FollowError>)
      modifies this
      ensures match Spec.Accept(old(Abs()), turn)
              case Ok(s) => r.Ok? && Abs() == s
              case Err(e) => r == Err(e) && Abs() == old(Abs())
    {
      if turn.number != nextTurn {
        return Err(Spec.TurnGap(nextTurn, turn.number));
      }
      if turn.sealedThrough < sealedThrough {
        return Err(Spec.FrontierRegressed(sealedThrough, turn.sealedThrough));
      }
      if nextTurn == U64_MAX {
        return Err(Spec.Overflow);
      }
      if sealedThrough == U64_MAX {
        return Err(Spec.Overflow);
      }
      var step := sealedThrough + 1;
      var expected, bytes := nextEvent, 0;
      ghost var k := Spec.FirstBreak(turn.events, 0, nextEvent, step);
      for i := 0 to |turn.events|
        invariant i <= k && expected == nextEvent + i
        invariant bytes == Spec.Bytes(turn.events[..i])
        invariant Abs() == old(Abs())
      {
        var event := turn.events[i];
        if event.seq_ != expected {
          assert !Spec.Due(turn.events, i, nextEvent, step);
          return Err(Spec.EventGap(expected, event.seq_));
        }
        if event.step != step {
          assert !Spec.Due(turn.events, i, nextEvent, step);
          return Err(Spec.EventStep(event.seq_, event.step, step));
        }
        if expected == U64_MAX {
          assert !Spec.Due(turn.events, i, nextEvent, step);
          return Err(Spec.Overflow);
        }
        assert Spec.Due(turn.events, i, nextEvent, step);
        expected := expected + 1;
        bytes := bytes + Spec.EventSize(event);
        assert turn.events[..i + 1] == turn.events[..i] + [event];
        Spec.BytesAppend(turn.events[..i], [event]);
      }
      assert turn.events[..|turn.events|] == turn.events;
      if queuedBytes + bytes > Spec.MAX_QUEUED_BYTES {
        return Err(Spec.Backlog);
      }
      nextTurn, nextEvent, sealedThrough, speed := nextTurn + 1, expected, turn.sealedThrough, turn.speed;
      queuedBytes := queuedBytes + bytes;
      queue := queue + turn.events;
      return Ok(());
    }

    /** Hands out what the canonical trace has next, if it is sealed. */
    method NextAction() returns (a: Option<Action>)
      modifies this`executed, this`queue, this`queuedBytes
      ensures (Abs(), a) == Spec.NextAction(old(Abs()))
    {
      var step := executed + 1;
      if |queue| > 0 && queue[0].step == step {
        var event := queue[0];
        queue := queue[1..];
        queuedBytes := Max(queuedBytes - Spec.EventSize(event), 0);
        return Some(Action.Apply(event));
      }
      if step <= sealedThrough {
        executed := step;
        return Some(Execute(step));
      }
      return None;
    }

    /** The step the next action would execute, if it is executing a step. */
    method NextStep() returns (step: Option<nat>)
      ensures step == Spec.NextStep(Abs())
    {
      var next := executed + 1;
      var eventFirst := |queue| > 0 && queue[0].step == next;
      step := if !eventFirst && next <= sealedThrough then Some(next) else None;
    }

    method ResumePoint() returns (r: Spec.Resume)
      ensures r == Spec.ResumePoint(Abs())
    {
      r := Spec.Resume(if nextTurn == 0 then 0 else nextTurn - 1, history);
    }
  }
}
