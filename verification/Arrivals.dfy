/** The bridge's part in holding a stream, updated in place: `OnEvent` is its
    function in `HeldStream`. */
module Arrivals {
  import opened Protocol
  import opened HeldStream
  import H = HeldStream

  class Connection {
    var roomHeard: bool
    var viewHeard: bool
    var heldStream: Option<TurnStart>
    var heldEvents: seq<Arrival>
    var heldBytes: nat

    ghost function Abs(): State
      reads this
    {
      State(roomHeard, viewHeard, heldStream, heldEvents, heldBytes)
    }

    constructor ()
      ensures Abs() == NEW_CONNECTION
    {
      roomHeard, viewHeard, heldStream, heldEvents, heldBytes := false, false, None, [], 0;
    }

    /** Back to a connection that has heard nothing; whatever waited is dropped. */
    method OnNewConnection()
      modifies this
      ensures Abs() == NEW_CONNECTION
    {
      roomHeard, viewHeard, heldStream, heldEvents, heldBytes := false, false, None, [], 0;
    }

    /** Handles one event: what takes effect, in order. */
    method OnEvent(a: Arrival) returns (r: Result<seq<Arrival>, Fault>)
      modifies this
      ensures match H.OnEvent(old(Abs()), a)
              case Ok((s, now)) => r == Ok(now) && Abs() == s
              case Err(fault) => r == Err(fault)
      decreases heldStream.Some?
    {
      if heldStream.Some? && Gated(a) {
        heldBytes := heldBytes + HeldWeight(a);
        if |heldEvents| >= MAX_HELD_EVENTS || heldBytes > MAX_HELD_BYTES {
          return Err(TooMuchHeld);
        }
        heldEvents := heldEvents + [a];
        return Ok([]);
      }
      var effects := [];
      if a.Stream? && (!roomHeard || !viewHeard) {
        heldStream := Some(a.start);
      } else {
        effects := [a];
        roomHeard, viewHeard := roomHeard || a.RoomMods?, viewHeard || a.RoomView?;
      }
      if roomHeard && viewHeard && heldStream.Some? {
        var start := heldStream.value;
        heldStream := None;
        var first := OnEvent(Stream(start));
        effects, heldBytes := effects + first.value, 0;
        ghost var waited := heldEvents;
        while heldEvents != []
          invariant roomHeard && viewHeard && heldStream.None? && heldBytes == 0
          invariant effects + heldEvents == [a, Stream(start)] + waited
          decreases |heldEvents|
        {
          var event := heldEvents[0];
          heldEvents := heldEvents[1..];
          var next := OnEvent(event);
          effects := effects + next.value;
        }
        assert effects + heldEvents == effects;
      }
      return Ok(effects);
    }
  }
}
