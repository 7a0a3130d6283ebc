/** The hook's session once its game began (crates/tpf3mp-bridge/src/session.rs): a load
    ordered is loaded before anything else is read, the game runs every step its gate
    lets it, and only then is the next message read. */
module Session {
  import opened Protocol
  import opened Trace
  import opened HookLink
  import opened Gate
  import opened Segments
  import O = Outbox
  import P = Pump

  /** Done in the world at hand, before what else was done. */
  function DoneFirst(now: seq<Action>, worlds: seq<seq<Action>>): seq<seq<Action>>
    requires worlds != []
  {
    worlds[0 := now + worlds[0]]
  }

  /** What the game does with `messages`, world by world, from the one at hand. */
  function Worlds(g: Gate, messages: seq<ToHook>): (r: Result<seq<seq<Action>>, GateError>)
    ensures r.Ok? ==> r.value != []
    decreases |messages|, if MayRun(g) then g.released - g.nextStep + 1 else 0
  {
    if MayRun(g) then
      match Worlds(g.(nextStep := g.nextStep + 1), messages)
      case Ok(worlds) => Ok(DoneFirst([Execute(g.nextStep)], worlds))
      case Err(e) => Err(e)
    else if g.ended || messages == [] then Ok([[]])
    else
      match OnMessage(g, messages[0])
      case Err(e) => Err(e)
      case Ok((h, now)) =>
        var load := messages[0].Load?;
        match Worlds(if load then LoadDone(h, messages[0].nextStep) else h, messages[1..])
        case Ok(worlds) => Ok(if load then [now] + worlds else DoneFirst(now, worlds))
        case Err(e) => Err(e)
  }

  /** What comes to the gate: the greeting and the game's beginning are heard before. */
  function AtGate(): ToHook -> bool { (m: ToHook) => !m.Hello? && !m.Begin? }

  predicate Ends(m: ToHook) { m.Other? && m.kind == END }

  /** Told in the form a gate takes. */
  ghost predicate Takes(x: Segment) {
    && 0 < x.first && (forall m <- x.moves :: m.Apply? || m.Release?)
    && P.Ascending(x.moves, x.first - 1) && GateOrder(P.Expand(x.moves, x.first - 1), x.first)
  }

  function Done(x: Segment): seq<Action> { P.Expand(x.moves, if x.first == 0 then 0 else x.first - 1) }

  function AllDone(segments: seq<Segment>): seq<seq<Action>> {
    seq(|segments|, i requires 0 <= i < |segments| => Done(segments[i]))
  }

  // ---- What the messages after a segment's first add to it ----

  lemma {:induction false} FeedBehind(before: seq<Segment>, x: Segment, messages: seq<ToHook>)
    ensures FeedAll(before + [x], messages) == before + FeedAll([x], messages)
    decreases |messages|
  {
    if messages != [] {
      var m, rest := messages[0], messages[1..];
      if m.Load? {
        assert before + [x] + [SegmentOf(m)] == (before + [x]) + [SegmentOf(m)] && [x] + [SegmentOf(m)] == [x, SegmentOf(m)];
        FeedBehind(before + [x], SegmentOf(m), rest);
        FeedBehind([x], SegmentOf(m), rest);
        assert before + [x] + FeedAll([SegmentOf(m)], rest) == before + ([x] + FeedAll([SegmentOf(m)], rest));
      } else {
        var fed := Feed([x], m)[0];
        assert Feed([x], m) == [fed] && Feed(before + [x], m) == before + [fed];
        FeedBehind(before, fed, rest);
      }
    }
  }

  /** A segment, and an empty one, grow by the same moves; the rest does not depend on
      them. */
  lemma {:induction false} FeedAlike(x: Segment, y: Segment, messages: seq<ToHook>)
    requires y.moves == []
    ensures var a, b := FeedAll([x], messages), FeedAll([y], messages);
            && a != [] && b != [] && a[1..] == b[1..]
            && b[0].first == y.first && a[0] == x.(moves := x.moves + b[0].moves)
    decreases |messages|
  {
    if messages == [] {
      assert x.moves + [] == x.moves;
    } else {
      var m, rest := messages[0], messages[1..];
      assert messages == [m] + rest;
      if m.Load? {
        FeedBehind([x], SegmentOf(m), rest);
        FeedBehind([y], SegmentOf(m), rest);
        assert x.moves + [] == x.moves;
      } else if Moves(m) {
        FeedAlike(x.(moves := x.moves + [m]), y, rest);
        FeedAlike(y.(moves := y.moves + [m]), y, rest);
        GrowAlike(x, y, m, rest, FeedAll([y], rest)[0].moves);
      } else {
        FeedAlike(x, y, rest);
      }
    }
  }

  lemma GrowAlike(x: Segment, y: Segment, m: ToHook, rest: seq<ToHook>, more: seq<ToHook>)
    requires y.moves == [] && Moves(m) && !m.Load?
    requires var x2, y2 := x.(moves := x.moves + [m]), y.(moves := y.moves + [m]);
             var a, b := FeedAll([x2], rest), FeedAll([y2], rest);
             && a != [] && b != [] && a[1..] == b[1..]
             && a[0] == x2.(moves := x2.moves + more) && b[0] == y2.(moves := y2.moves + more)
    ensures var a, b := FeedAll([x], [m] + rest), FeedAll([y], [m] + rest);
            && a != [] && b != [] && a[1..] == b[1..]
            && b[0].first == y.first && a[0] == x.(moves := x.moves + b[0].moves)
  {
    assert ([m] + rest)[0] == m && ([m] + rest)[1..] == rest;
    assert Feed([x], m) == [x.(moves := x.moves + [m])] && Feed([y], m) == [y.(moves := y.moves + [m])];
    assert x.moves + [m] + more == x.moves + ([] + [m] + more);
  }

  // ---- The game does what its segments expand to ----

  lemma {:induction false} RunsReleased(g: Gate, messages: seq<ToHook>)
    requires 0 < g.nextStep <= g.released + 1 && !g.loading && !g.ended
    ensures var after := Worlds(g.(nextStep := g.released + 1), messages);
            Worlds(g, messages) == if after.Ok? then Ok(DoneFirst(Steps(g.nextStep - 1, g.released), after.value)) else after
    decreases g.released + 1 - g.nextStep
  {
    var after := Worlds(g.(nextStep := g.released + 1), messages);
    if MayRun(g) {
      RunsReleased(g.(nextStep := g.nextStep + 1), messages);
      assert Steps(g.nextStep - 1, g.released) == [Execute(g.nextStep)] + Steps(g.nextStep, g.released);
      if after.Ok? {
        DoneTwice([Execute(g.nextStep)], Steps(g.nextStep, g.released), after.value);
      }
    } else if after.Ok? {
      DoneNothing(after.value);
    }
  }

  lemma DoneTwice(a: seq<Action>, b: seq<Action>, worlds: seq<seq<Action>>)
    requires worlds != []
    ensures DoneFirst(a, DoneFirst(b, worlds)) == DoneFirst(a + b, worlds)
  {
    assert a + (b + worlds[0]) == a + b + worlds[0];
  }

  lemma DoneNothing(worlds: seq<seq<Action>>)
    requires worlds != []
    ensures DoneFirst([], worlds) == worlds
  {
    assert [] + worlds[0] == worlds[0];
  }

  lemma DoneMore(a: seq<Segment>, b: seq<Segment>, now: seq<Action>)
    requires a != [] && b != [] && a[1..] == b[1..] && Done(a[0]) == now + Done(b[0])
    ensures AllDone(a) == DoneFirst(now, AllDone(b))
  {
    assert forall i :: 0 < i < |a| ==> a[i] == a[1..][i - 1] && b[i] == b[1..][i - 1];
  }

  /** An event is applied before the step the gate waits at. */
  lemma TakesEvent(x: Segment, y: Segment, m: ToHook)
    requires Takes(x) && m.Apply? && x.first == y.first && x.moves == [m] + y.moves
    ensures m.event.step == x.first && Takes(y) && Done(x) == [Action.Apply(m.event)] + Done(y)
  {
    assert x.moves[0] == m && x.moves[1..] == y.moves;
    assert P.Expand(x.moves, x.first - 1) == [Action.Apply(m.event)] + P.Expand(y.moves, x.first - 1);
    assert forall n <- y.moves :: n in x.moves;
  }

  /** A release lets the game run to it; from there the rest follows. */
  lemma TakesRelease(x: Segment, y: Segment, m: ToHook)
    requires Takes(x) && m.Release? && y.first == m.through + 1 && x.moves == [m] + y.moves
    ensures x.first <= m.through && Takes(y) && Done(x) == Steps(x.first - 1, m.through) + Done(y)
  {
    assert x.moves[0] == m && x.moves[1..] == y.moves;
    assert forall n <- y.moves :: n in x.moves;
    assert x.first - 1 < m.through && P.Ascending(y.moves, m.through);
    RestInOrder(x.first, m.through, P.Expand(y.moves, m.through));
  }

  lemma RestInOrder(first: nat, through: nat, rest: seq<Action>)
    requires 0 < first <= through && GateOrder(Steps(first - 1, through) + rest, first)
    ensures GateOrder(rest, through + 1)
  {
    StepsOrder(first - 1, through);
    GateOrderAppend(Steps(first - 1, through), rest, first);
  }

  /** If every segment heard is in the form a gate takes, the session refuses nothing,
      and in each world the game does exactly what its segment expands to. */
  lemma {:induction false} PlaysEverySegment(x: Segment, messages: seq<ToHook>)
    requires x.moves == [] && 0 < x.first
    requires forall m <- messages :: AtGate()(m) && !Ends(m)
    requires forall s <- FeedAll([x], messages) :: Takes(s)
    ensures Worlds(NewGate(x.first), messages) == Ok(AllDone(FeedAll([x], messages)))
    decreases |messages|
  {
    if messages == [] {
      assert AllDone([x]) == [[]];
    } else {
      var m, rest := messages[0], messages[1..];
      assert messages == [m] + rest && m in messages && forall n <- rest :: n in messages;
      if m.Load? {
        LoadPlays(x, m, rest);
      } else if m.Apply? {
        EventPlays(x, m, rest);
      } else if m.Release? {
        ReleasePlays(x, m, rest);
      } else {
        PlaysEverySegment(x, rest);
        DoneNothing(AllDone(FeedAll([x], rest)));
      }
    }
  }

  lemma {:induction false} LoadPlays(x: Segment, m: ToHook, rest: seq<ToHook>)
    requires x.moves == [] && 0 < x.first && m.Load?
    requires forall n <- rest :: AtGate()(n) && !Ends(n)
    requires forall s <- FeedAll([x], [m] + rest) :: Takes(s)
    ensures Worlds(NewGate(x.first), [m] + rest) == Ok(AllDone(FeedAll([x], [m] + rest)))
    decreases |rest| + 1, 0
  {
    var there := FeedAll([SegmentOf(m)], rest);
    LoadBegins(x, m, rest);
    assert forall s <- there :: s in [x] + there;
    assert there[0] in there;
    PlaysEverySegment(SegmentOf(m), rest);
    LoadDoes(x, m, rest);
  }

  lemma LoadBegins(x: Segment, m: ToHook, rest: seq<ToHook>)
    requires m.Load?
    ensures var there := FeedAll([SegmentOf(m)], rest);
            there != [] && there[0].first == m.nextStep && FeedAll([x], [m] + rest) == [x] + there
  {
    assert ([m] + rest)[0] == m && ([m] + rest)[1..] == rest;
    FeedBehind([x], SegmentOf(m), rest);
    FeedAlike(SegmentOf(m), SegmentOf(m), rest);
  }

  lemma LoadDoes(x: Segment, m: ToHook, rest: seq<ToHook>)
    requires x.moves == [] && 0 < x.first && m.Load? && 0 < m.nextStep
    requires Worlds(NewGate(m.nextStep), rest) == Ok(AllDone(FeedAll([SegmentOf(m)], rest)))
    ensures Worlds(NewGate(x.first), [m] + rest) == Ok(AllDone([x] + FeedAll([SegmentOf(m)], rest)))
  {
    assert ([m] + rest)[0] == m && ([m] + rest)[1..] == rest;
    NothingBefore(x, FeedAll([SegmentOf(m)], rest));
  }

  lemma NothingBefore(x: Segment, segments: seq<Segment>)
    requires x.moves == []
    ensures AllDone([x] + segments) == [[]] + AllDone(segments)
  {
  }

  lemma {:induction false} EventPlays(x: Segment, m: ToHook, rest: seq<ToHook>)
    requires x.moves == [] && 0 < x.first && m.Apply?
    requires forall n <- rest :: AtGate()(n) && !Ends(n)
    requires forall s <- FeedAll([x], [m] + rest) :: Takes(s)
    ensures Worlds(NewGate(x.first), [m] + rest) == Ok(AllDone(FeedAll([x], [m] + rest)))
    decreases |rest| + 1, 0
  {
    var messages, fed := [m] + rest, x.(moves := x.moves + [m]);
    assert messages[0] == m && messages[1..] == rest && Feed([x], m) == [fed];
    var a, b := FeedAll([fed], rest), FeedAll([x], rest);
    FeedAlike(fed, x, rest);
    assert a[0] in a && a[0].moves == [m] + b[0].moves;
    TakesEvent(a[0], b[0], m);
    TailTakes(a, b);
    PlaysEverySegment(x, rest);
    DoneMore(a, b, [Action.Apply(m.event)]);
  }

  lemma {:induction false} ReleasePlays(x: Segment, m: ToHook, rest: seq<ToHook>)
    requires x.moves == [] && 0 < x.first && m.Release?
    requires forall n <- rest :: AtGate()(n) && !Ends(n)
    requires forall s <- FeedAll([x], [m] + rest) :: Takes(s)
    ensures Worlds(NewGate(x.first), [m] + rest) == Ok(AllDone(FeedAll([x], [m] + rest)))
    decreases |rest| + 1, 0
  {
    var messages, fed, y := [m] + rest, x.(moves := x.moves + [m]), x.(first := m.through + 1);
    assert messages[0] == m && messages[1..] == rest && Feed([x], m) == [fed];
    var a, b := FeedAll([fed], rest), FeedAll([y], rest);
    FeedAlike(fed, y, rest);
    assert a[0] in a && a[0].moves == [m] + b[0].moves;
    TakesRelease(a[0], b[0], m);
    TailTakes(a, b);
    PlaysEverySegment(y, rest);
    DoneMore(a, b, Steps(x.first - 1, m.through));
    ReleaseRuns(x.first, m, rest);
  }

  lemma TailTakes(a: seq<Segment>, b: seq<Segment>)
    requires a != [] && b != [] && a[1..] == b[1..] && Takes(b[0]) && forall s <- a :: Takes(s)
    ensures forall s <- b :: Takes(s)
  {
    forall s | s in b ensures Takes(s) {
      if s != b[0] {
        assert s in b[1..];
      }
    }
  }

  lemma ReleaseRuns(first: nat, m: ToHook, rest: seq<ToHook>)
    requires 0 < first && m.Release? && first <= m.through
    ensures var after := Worlds(NewGate(m.through + 1), rest);
            Worlds(NewGate(first), [m] + rest)
            == if after.Ok? then Ok(DoneFirst(Steps(first - 1, m.through), after.value)) else after
  {
    var messages, g := [m] + rest, NewGate(first).(released := m.through);
    assert messages[0] == m && messages[1..] == rest;
    RunsReleased(g, rest);
    var ran := Worlds(g, rest);
    if ran.Ok? {
      DoneNothing(ran.value);
    }
  }

  /** Told the end between two steps, the game does nothing more, whatever follows. */
  lemma NothingAfterTheEnd(g: Gate, end: ToHook, rest: seq<ToHook>)
    requires Ends(end) && !MayRun(g)
    ensures Worlds(g, [end] + rest) == Ok([[]])
  {
    var messages := [end] + rest;
    assert messages[0] == end && messages[1..] == rest;
    if !g.ended {
      DoneNothing([[]]);
    }
  }

  // ---- Whatever is sent ----

  /** Whatever it is sent, the game never applies an event out of its place, nor runs a step
      twice or past what was released: in each world what it does keeps the gate's order,
      from the step that world was loaded at. */
  lemma {:induction false} NeverOutOfOrder(g: Gate, messages: seq<ToHook>)
    requires Worlds(g, messages).Ok?
    ensures GateOrder(Worlds(g, messages).value[0], g.nextStep)
    ensures forall world <- Worlds(g, messages).value :: InOneOrder(world)
    decreases |messages|, if MayRun(g) then g.released - g.nextStep + 1 else 0
  {
    if MayRun(g) {
      var h := g.(nextStep := g.nextStep + 1);
      NeverOutOfOrder(h, messages);
      FirstInOrder([Execute(g.nextStep)], Worlds(h, messages).value, g.nextStep, h.nextStep);
    } else if !g.ended && messages != [] {
      var m, rest := messages[0], messages[1..];
      var (h, now) := OnMessage(g, m).value;
      if m.Load? {
        var after := LoadDone(h, m.nextStep);
        NeverOutOfOrder(after, rest);
        assert Worlds(g, messages).value == [[]] + Worlds(after, rest).value && GateOrder([], 0);
      } else {
        NeverOutOfOrder(h, rest);
        FirstInOrder(now, Worlds(h, rest).value, g.nextStep, h.nextStep);
      }
    } else {
      assert GateOrder([], g.nextStep);
    }
  }

  ghost predicate InOneOrder(world: seq<Action>) { exists next :: GateOrder(world, next) }

  lemma FirstInOrder(now: seq<Action>, worlds: seq<seq<Action>>, next: nat, after: nat)
    requires worlds != [] && GateOrder(worlds[0], after) && forall world <- worlds :: InOneOrder(world)
    requires |now| <= 1 && GateOrder(now, next) && NextAfter(now, next) == after
    ensures GateOrder(DoneFirst(now, worlds)[0], next) && forall world <- DoneFirst(now, worlds) :: InOneOrder(world)
  {
    GateOrderAppend(now, worlds[0], next);
  }

  /** The last step released by these messages, or loaded past. */
  lemma {:induction false} NeverPastTheRelease(g: Gate, messages: seq<ToHook>, bound: nat)
    requires Worlds(g, messages).Ok? && g.released <= bound
    requires forall m <- messages :: (m.Release? ==> m.through <= bound) && !m.Load?
    ensures |Worlds(g, messages).value| == 1
    ensures forall a <- Worlds(g, messages).value[0] :: a.Execute? ==> a.step <= bound
    decreases |messages|, if MayRun(g) then g.released - g.nextStep + 1 else 0
  {
    if MayRun(g) {
      NeverPastTheRelease(g.(nextStep := g.nextStep + 1), messages, bound);
    } else if !g.ended && messages != [] {
      var (h, now) := OnMessage(g, messages[0]).value;
      assert messages[0] in messages && forall m <- messages[1..] :: m in messages;
      NeverPastTheRelease(h, messages[1..], bound);
    }
  }
}
