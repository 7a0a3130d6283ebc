/** Joining a running game: what belongs to the game waits until the room's view and
    its mods were heard, whatever order they arrive in
    (crates/tpf3mp-agent/src/bridge.rs, `on_event`). */
module HeldStream {
  import opened Protocol
  import F = FollowerSpec

  const MAX_HELD_EVENTS: nat := 4096
  const MAX_HELD_BYTES: nat := 0x100_0000
  const HELD_EVENT_OVERHEAD: nat := 256

  /** What arrives on a connection. `Free` stands for what never waits: chat,
      previews, notices, the AI's seats. */
  datatype Arrival =
    | Stream(start: TurnStart)
    | TurnCame(turn: Turn)
    | Diverged(step: nat)
    | Upload(event: nat)
    | Rejected(command: nat)
    | RoomView
    | RoomMods
    | Free(kind: nat)

  /** Whether it belongs to the game a held stream begins. */
  predicate Gated(a: Arrival) { a.Stream? || a.TurnCame? || a.Diverged? || a.Upload? || a.Rejected? }

  function HeldWeight(a: Arrival): nat {
    if a.TurnCame? then F.EVENT_OVERHEAD + F.Bytes(a.turn.events) else HELD_EVENT_OVERHEAD
  }

  function Weights(held: seq<Arrival>): nat {
    if held == [] then 0 else Weights(held[..|held| - 1]) + HeldWeight(held[|held| - 1])
  }

  datatype State = State(roomHeard: bool, viewHeard: bool, heldStream: Option<TurnStart>,
                         heldEvents: seq<Arrival>, heldBytes: nat)

  /** A new connection: it hears everything anew. */
  const NEW_CONNECTION := State(false, false, None, [], 0)

  datatype Fault = TooMuchHeld

  /** One arrival: the state after it, and what takes effect, in order. */
  function OnEvent(s: State, a: Arrival): Result<(State, seq<Arrival>), Fault> {
    if s.heldStream.Some? && Gated(a) then
      var bytes := s.heldBytes + HeldWeight(a);
      if |s.heldEvents| >= MAX_HELD_EVENTS || bytes > MAX_HELD_BYTES then Err(TooMuchHeld)
      else Ok((s.(heldEvents := s.heldEvents + [a], heldBytes := bytes), []))
    else if a.Stream? && !(s.roomHeard && s.viewHeard) then Ok((s.(heldStream := Some(a.start)), []))
    else
      var t := s.(roomHeard := s.roomHeard || a.RoomMods?, viewHeard := s.viewHeard || a.RoomView?);
      if t.roomHeard && t.viewHeard && t.heldStream.Some? then
        Ok((t.(heldStream := None, heldEvents := [], heldBytes := 0), [a, Stream(t.heldStream.value)] + t.heldEvents))
      else Ok((t, [a]))
  }

  function Deliver(arrivals: seq<Arrival>): Result<(State, seq<Arrival>), Fault> {
    if arrivals == [] then Ok((NEW_CONNECTION, []))
    else
      match Deliver(arrivals[..|arrivals| - 1])
      case Err(fault) => Err(fault)
      case Ok((s, effects)) =>
        match OnEvent(s, arrivals[|arrivals| - 1])
        case Err(fault) => Err(fault)
        case Ok((t, now)) => Ok((t, effects + now))
  }

  /** What a game's stream brings on; the room's view, its mods and what never waits are
      all else. */
  predicate OfTheGame(a: Arrival) { !a.RoomView? && !a.RoomMods? && !a.Free? }

  function Only(arrivals: seq<Arrival>, gated: bool): seq<Arrival> {
    if arrivals == [] then []
    else
      var last := arrivals[|arrivals| - 1];
      if OfTheGame(last) == gated then Only(arrivals[..|arrivals| - 1], gated) + [last]
      else Only(arrivals[..|arrivals| - 1], gated)
  }

  lemma {:induction false} OnlyAppend(a: seq<Arrival>, b: seq<Arrival>, gated: bool)
    ensures Only(a + b, gated) == Only(a, gated) + Only(b, gated)
    decreases |b|
  {
    if b == [] {
      assert a + b == a;
    } else {
      var n := |b| - 1;
      assert (a + b)[..|a + b| - 1] == a + b[..n] && (a + b)[|a + b| - 1] == b[n];
      OnlyAppend(a, b[..n], gated);
    }
  }

  lemma {:induction false} OnlyAll(a: seq<Arrival>, gated: bool)
    ensures (forall x <- a :: OfTheGame(x) == gated) ==> Only(a, gated) == a && Only(a, !gated) == []
    ensures forall x :: x in Only(a, gated) <==> x in a && OfTheGame(x) == gated
  {
    if a != [] {
      var n := |a| - 1;
      assert a == a[..n] + [a[n]];
      OnlyAll(a[..n], gated);
    }
  }

  /** What waits: the stream held, then what came after it. */
  function Waiting(s: State): seq<Arrival> {
    if s.heldStream.None? then [] else [Stream(s.heldStream.value)] + s.heldEvents
  }

  ghost predicate BothHeard(arrivals: seq<Arrival>) { RoomView in arrivals && RoomMods in arrivals }

  /** No stream takes effect before the room's view and its mods. */
  ghost predicate StreamsAfterBoth(effects: seq<Arrival>) {
    forall i :: 0 <= i < |effects| && effects[i].Stream? ==> BothHeard(effects[..i])
  }

  /** What belongs to the game takes effect in the order it came, and so does the
      rest; nothing is lost or repeated. */
  ghost predicate InOrder(arrivals: seq<Arrival>, s: State, effects: seq<Arrival>) {
    && Only(effects, true) + Waiting(s) == Only(arrivals, true)
    && Only(effects, false) == Only(arrivals, false)
  }

  ghost predicate Counted(s: State) {
    && (s.heldStream.None? ==> s.heldEvents == [])
    && (forall a <- s.heldEvents :: OfTheGame(a))
    && s.heldBytes == Weights(s.heldEvents)
    && |s.heldEvents| <= MAX_HELD_EVENTS && s.heldBytes <= MAX_HELD_BYTES
  }

  ghost predicate Hears(arrivals: seq<Arrival>, s: State) {
    && s.roomHeard == (RoomMods in arrivals) && s.viewHeard == (RoomView in arrivals)
    && (s.heldStream.Some? ==> !BothHeard(arrivals))
  }

  lemma HearsOneMore(arrivals: seq<Arrival>, s: State, a: Arrival)
    requires Hears(arrivals, s) && OnEvent(s, a).Ok?
    ensures Hears(arrivals + [a], OnEvent(s, a).value.0)
  {
  }

  lemma CountedOneMore(s: State, a: Arrival)
    requires Counted(s) && OnEvent(s, a).Ok?
    ensures Counted(OnEvent(s, a).value.0)
  {
    if s.heldStream.Some? && OfTheGame(a) {
      CountedHeld(s, a);
    }
  }

  lemma CountedHeld(s: State, a: Arrival)
    requires Counted(s) && s.heldStream.Some? && OfTheGame(a) && OnEvent(s, a).Ok?
    ensures Counted(OnEvent(s, a).value.0)
  {
    WeightsOneMore(s.heldEvents, a);
    HeldOneMore(s.heldEvents, a);
  }

  lemma HeldOneMore(held: seq<Arrival>, a: Arrival)
    requires (forall x <- held :: OfTheGame(x)) && OfTheGame(a)
    ensures forall x <- held + [a] :: OfTheGame(x)
  {
  }

  lemma WeightsOneMore(held: seq<Arrival>, a: Arrival)
    ensures Weights(held + [a]) == Weights(held) + HeldWeight(a)
  {
    assert (held + [a])[..|held|] == held;
  }

  lemma OnlyOneMore(a: seq<Arrival>, x: Arrival, gated: bool)
    ensures Only(a + [x], gated) == if OfTheGame(x) == gated then Only(a, gated) + [x] else Only(a, gated)
  {
    assert (a + [x])[..|a + [x]| - 1] == a;
  }

  /** An arrival that waits. */
  lemma OrderHeld(arrivals: seq<Arrival>, s: State, effects: seq<Arrival>, a: Arrival, t: State)
    requires InOrder(arrivals, s, effects) && Counted(s) && OnEvent(s, a) == Ok((t, []))
    ensures InOrder(arrivals + [a], t, effects)
  {
    OnlyOneMore(arrivals, a, true);
    OnlyOneMore(arrivals, a, false);
    assert Waiting(t) == Waiting(s) + [a];
    Associates(Only(effects, true), Waiting(s), [a]);
  }

  /** Of the effects, what belongs to the game, and what does not. */
  lemma OnlyTaken(effects: seq<Arrival>, a: Arrival, freed: seq<Arrival>)
    requires forall x <- freed :: OfTheGame(x)
    ensures Only(effects + [a] + freed, true) == (if OfTheGame(a) then Only(effects, true) + [a] else Only(effects, true)) + freed
    ensures Only(effects + [a] + freed, false) == if OfTheGame(a) then Only(effects, false) else Only(effects, false) + [a]
  {
    OnlyOneMore(effects, a, true);
    OnlyOneMore(effects, a, false);
    OnlyAppend(effects + [a], freed, true);
    OnlyAppend(effects + [a], freed, false);
    OnlyAll(freed, true);
    assert Only(effects + [a], false) + [] == Only(effects + [a], false);
  }

  /** An arrival that takes effect, and what it lets go. */
  lemma OrderTaken(arrivals: seq<Arrival>, s: State, effects: seq<Arrival>, a: Arrival, t: State, freed: seq<Arrival>)
    requires InOrder(arrivals, s, effects)
    requires forall x <- freed :: OfTheGame(x)
    requires if OfTheGame(a) then Waiting(s) == [] && Waiting(t) == [] && freed == [] else freed + Waiting(t) == Waiting(s)
    ensures InOrder(arrivals + [a], t, effects + [a] + freed)
  {
    var gated, before, left := Only(effects, true), Waiting(s), Waiting(t);
    OnlyOneMore(arrivals, a, true);
    OnlyOneMore(arrivals, a, false);
    OnlyTaken(effects, a, freed);
    if OfTheGame(a) {
      assert gated + [a] + [] == gated + [a] && gated + [a] + [] + [] == gated + [a] && gated + [] == gated;
    } else {
      Associates(gated, freed, left);
    }
  }

  /** What an arrival does: it waits, or takes effect with all that waited when it
      is the last the room had to say. */
  lemma WhatAnArrivalDoes(arrivals: seq<Arrival>, s: State, a: Arrival)
    requires Hears(arrivals, s) && Counted(s) && OnEvent(s, a).Ok?
    ensures var (t, now) := OnEvent(s, a).value;
            now == [] || (exists freed :: now == [a] + freed
                            && (forall x <- freed :: OfTheGame(x))
                            && (freed != [] || a.Stream? ==> BothHeard(arrivals + [a]))
                            && (if OfTheGame(a) then Waiting(s) == [] && Waiting(t) == [] && freed == []
                                else freed + Waiting(t) == Waiting(s)))
  {
    var (t, now) := OnEvent(s, a).value;
    if now != [] {
      var freed := now[1..];
      assert now == [a] + freed;
      if freed != [] {
        assert freed == Waiting(s);
      }
    }
  }

  lemma StreamsOneMore(arrivals: seq<Arrival>, s: State, effects: seq<Arrival>, a: Arrival, freed: seq<Arrival>)
    requires InOrder(arrivals, s, effects) && StreamsAfterBoth(effects)
    requires freed != [] || a.Stream? ==> BothHeard(arrivals + [a])
    requires a.Stream? ==> freed == []
    ensures StreamsAfterBoth(effects + [a] + freed)
  {
    if BothHeard(arrivals + [a]) {
      OnlyOneMore(arrivals, a, false);
      OnlyOneMore(effects, a, false);
      HeardTakesEffect(arrivals + [a], effects + [a]);
      HeardTakesEffect(arrivals, effects);
    }
    var one, all := effects + [a], effects + [a] + freed;
    forall i | 0 <= i < |all| && all[i].Stream? ensures BothHeard(all[..i]) {
      if i < |effects| {
        assert all[..i] == effects[..i];
      } else if i == |effects| {
        assert all[..i] == effects;
      } else {
        assert forall x <- one :: x in all[..i] by {
          assert all[..i][..|one|] == one;
        }
      }
    }
  }

  lemma HeardTakesEffect(arrivals: seq<Arrival>, effects: seq<Arrival>)
    requires Only(effects, false) == Only(arrivals, false)
    ensures BothHeard(arrivals) ==> BothHeard(effects)
  {
    OnlyAll(effects, false);
    OnlyAll(arrivals, false);
    assert RoomView in arrivals ==> RoomView in Only(arrivals, false);
    assert RoomMods in arrivals ==> RoomMods in Only(arrivals, false);
  }

  // ---- What is counted ----

  /** The commands' payloads among what waits. */
  function Payloads(held: seq<Arrival>): seq<Byte> {
    if held == [] then []
    else
      var last := held[|held| - 1];
      Payloads(held[..|held| - 1]) + if last.TurnCame? then F.Payloads(last.turn.events) else []
  }

  /** What is allowed for besides: each turn and each of its events, and each other. */
  function Allowance(held: seq<Arrival>): nat {
    if held == [] then 0
    else
      var last := held[|held| - 1];
      Allowance(held[..|held| - 1])
      + if last.TurnCame? then F.EVENT_OVERHEAD * (1 + |last.turn.events|) else HELD_EVENT_OVERHEAD
  }

  /** What waits is counted with every byte its events carry, and an allowance for each. */
  lemma {:induction false} CountsWhatItCarries(held: seq<Arrival>)
    ensures Weights(held) == |Payloads(held)| + Allowance(held)
  {
    if held != [] {
      var last := held[|held| - 1];
      CountsWhatItCarries(held[..|held| - 1]);
      if last.TurnCame? {
        F.BytesAreCarried(last.turn.events);
      }
    }
  }

  /** For every order in which a connection's events arrive, up to where too much
      waits: events of the game take effect in the order they arrived, none lost
      or repeated, and so do all others; no stream begins the game before the
      room's view and its mods were heard; once they were, nothing waits; and what
      waits is counted exactly, within both bounds; its events carry no more bytes. */
  lemma {:induction false} HeldInOrder(arrivals: seq<Arrival>)
    requires Deliver(arrivals).Ok?
    ensures var (s, effects) := Deliver(arrivals).value;
            && InOrder(arrivals, s, effects) && StreamsAfterBoth(effects)
            && Hears(arrivals, s) && Counted(s)
            && (BothHeard(arrivals) ==> Waiting(s) == [])
            && |Payloads(s.heldEvents)| <= MAX_HELD_BYTES
    decreases |arrivals|
  {
    if arrivals != [] {
      var before, a := arrivals[..|arrivals| - 1], arrivals[|arrivals| - 1];
      HeldInOrder(before);
      var (s, effects) := Deliver(before).value;
      var (t, now) := OnEvent(s, a).value;
      assert arrivals == before + [a];
      HearsOneMore(before, s, a);
      CountedOneMore(s, a);
      CountsWhatItCarries(t.heldEvents);
      WhatAnArrivalDoes(before, s, a);
      if now == [] {
        OrderHeld(before, s, effects, a, t);
        assert effects + now == effects;
      } else {
        var freed := now[1..];
        OrderTaken(before, s, effects, a, t, freed);
        StreamsOneMore(before, s, effects, a, freed);
        Associates(effects, [a], freed);
      }
    }
  }

  /** Too much waits exactly when the next event of the game would pass a bound. */
  lemma FaultsExactlyPastTheBounds(arrivals: seq<Arrival>, a: Arrival)
    requires Deliver(arrivals).Ok?
    ensures var s := Deliver(arrivals).value.0;
            Deliver(arrivals + [a]).Err? <==>
              && Waiting(s) != [] && OfTheGame(a)
              && (|Waiting(s)| > MAX_HELD_EVENTS || Weights(s.heldEvents + [a]) > MAX_HELD_BYTES)
  {
    HeldInOrder(arrivals);
    DeliverOneMore(arrivals, a);
    FaultsPastTheBounds(Deliver(arrivals).value.0, a);
  }

  lemma DeliverOneMore(arrivals: seq<Arrival>, a: Arrival)
    requires Deliver(arrivals).Ok?
    ensures Deliver(arrivals + [a]).Err? <==> OnEvent(Deliver(arrivals).value.0, a).Err?
  {
    assert (arrivals + [a])[..|arrivals + [a]| - 1] == arrivals;
  }

  lemma FaultsPastTheBounds(s: State, a: Arrival)
    requires Counted(s)
    ensures OnEvent(s, a).Err? <==>
              && Waiting(s) != [] && OfTheGame(a)
              && (|Waiting(s)| > MAX_HELD_EVENTS || Weights(s.heldEvents + [a]) > MAX_HELD_BYTES)
  {
    WeightsOneMore(s.heldEvents, a);
  }
}
