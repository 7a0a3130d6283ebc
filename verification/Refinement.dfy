/** What the game is told refines the canonical trace: in every run of the system
    each load's segment is a part, from its beginning, of the trace of the turns
    accepted for it, in a form the gate takes. */
module Refinement {
  import opened Protocol
  import opened Trace
  import opened HookLink
  import opened BridgeSpec
  import opened Segments
  import opened System
  import F = FollowerSpec
  import opened Gate
  import opened Session
  import L = Loads
  import opened Orders
  import O = Outbox
  import P = Pump

  // ---- The outbox: nothing moves the game before the load it waits for -----------------

  ghost predicate Idle(messages: seq<ToHook>) { forall m <- messages :: !Moves(m) }

  ghost predicate Tidy(messages: seq<ToHook>) {
    messages == [] || (Tidy(messages[1..]) && (Moves(messages[0]) ==> L.NoLoad(messages[1..])))
  }

  lemma {:induction false} TidyAppend(a: seq<ToHook>, b: seq<ToHook>)
    requires Tidy(a) && L.NoLoad(b)
    ensures Tidy(a + b)
  {
    if a == [] {
      assert a + b == b;
      NoLoadTidy(b);
    } else {
      assert (a + b)[0] == a[0] && (a + b)[1..] == a[1..] + b;
      TidyAppend(a[1..], b);
    }
  }

  lemma {:induction false} NoLoadTidy(a: seq<ToHook>)
    requires L.NoLoad(a)
    ensures Tidy(a)
  {
    if a != [] {
      assert forall m <- a[1..] :: m in a;
      NoLoadTidy(a[1..]);
    }
  }

  lemma {:induction false} TidyKept(a: seq<ToHook>, keep: ToHook -> bool)
    requires Tidy(a)
    ensures Tidy(O.Keep(a, keep))
  {
    if a != [] {
      TidyKept(a[1..], keep);
      O.KeepOnly(a[1..], keep);
      var kept := O.Keep(a, keep);
      if keep(a[0]) {
        assert kept[0] == a[0] && kept[1..] == O.Keep(a[1..], keep);
      } else {
        assert kept == O.Keep(a[1..], keep);
      }
    }
  }

  lemma {:induction false} TidyLoad(a: seq<ToHook>, l: ToHook)
    requires Idle(a)
    ensures Tidy(a + [l])
  {
    if a == [] {
      assert a + [l] == [l] && [l][1..] == [] && Tidy([l][1..]);
    } else {
      assert a[0] in a && forall m <- a[1..] :: m in a;
      assert (a + [l])[0] == a[0] && (a + [l])[1..] == a[1..] + [l];
      TidyLoad(a[1..], l);
    }
  }

  // ---- The follower and what its game was told ------------------------------------------

  /** The follower `f` has handed out `moves`, and they and what it owes make up the
      trace of its era. */
  ghost predicate Lives(f: F.State, era: Era, moves: seq<ToHook>) {
    && F.Valid(f)
    && Log(era.start, era.turns)
    && F.Tip(f) == AfterAll(era.start, era.turns)
    && (forall m <- moves :: m.Apply? || m.Release?)
    && P.Ascending(moves, era.start.sealed)
    && P.RunTo(moves, era.start.sealed) == f.executed
    && TraceOf(era) == P.Expand(moves, era.start.sealed) + F.Drain(f)
  }

  lemma NewLives(start: TurnStart)
    ensures Lives(F.New(start), Era(FrontierOf(start), []), [])
  {
  }

  lemma TurnLives(f: F.State, f2: F.State, era: Era, moves: seq<ToHook>, turn: Turn)
    requires Lives(f, era, moves) && Fits(F.Tip(f), turn)
    requires F.Valid(f2) && F.Tip(f2) == After(F.Tip(f), turn) && f2.executed == f.executed
    requires F.Drain(f2) == F.Drain(f) + TurnTrace(f.sealedThrough, turn)
    ensures Lives(f2, era.(turns := era.turns + [turn]), moves)
  {
    OneMore(era.start, era.turns, turn);
    Associates(P.Expand(moves, era.start.sealed), F.Drain(f), TurnTrace(f.sealedThrough, turn));
  }

  lemma AcceptedTurn(f: F.State, turn: Turn)
    requires F.Valid(f) && F.Accept(f, turn).Ok?
    ensures var f2 := F.Accept(f, turn).value;
            && Fits(F.Tip(f), turn)
            && F.Valid(f2) && F.Tip(f2) == After(F.Tip(f), turn) && f2.executed == f.executed
            && F.Drain(f2) == F.Drain(f) + TurnTrace(f.sealedThrough, turn)
  {
    F.AcceptOwesTurn(f, turn);
    F.AcceptsExactlyTheLog(f, turn);
  }

  lemma PumpLives(f: F.State, era: Era, moves: seq<ToHook>, f2: F.State, put: seq<ToHook>)
    requires Lives(f, era, moves) && P.Pumped(f, f2, put)
    ensures Lives(f2, era, moves + put)
  {
    P.ExpandAppend(moves, put, era.start.sealed);
    Associates(P.Expand(moves, era.start.sealed), P.Expand(put, f.executed), F.Drain(f2));
  }

  lemma RestartLives(f: F.State, era: Era, moves: seq<ToHook>, start: TurnStart)
    requires Lives(f, era, moves) && F.Restart(f, start).Ok?
    ensures Lives(F.Restart(f, start).value, era, moves)
  {
  }

  lemma LivesFollows(f: F.State, era: Era, segment: Segment)
    requires Lives(f, era, segment.moves) && segment.first == era.start.sealed + 1
    ensures Follows(segment, era)
  {
  }

  // ---- The invariant -------------------------------------------------------------------

  /** Each load sent is numbered by its generation, rising. */
  ghost predicate Numbered(segments: seq<Segment>, sent: seq<nat>, eras: seq<Era>) {
    && |segments| == |sent|
    && (forall i :: 0 <= i < |sent| ==> 1 <= sent[i] <= |eras|)
    && (forall i, j :: 0 <= i < j < |sent| ==> sent[i] < sent[j])
  }

  /** Every segment sent follows the era of its load. */
  ghost predicate AllFollow(segments: seq<Segment>, sent: seq<nat>, eras: seq<Era>)
    requires Numbered(segments, sent, eras)
  {
    forall i :: 0 <= i < |sent| ==> Follows(segments[i], eras[sent[i] - 1])
  }

  /** What was sent and what waits, together (`whole`), are what the follower
      handed out since the latest load. `waits`: that load waits to be sent;
      `idle`: nothing that waits moves the game. */
  ghost predicate Current(whole: seq<Segment>, waits: bool, idle: bool, world: World, generation: nat,
                          follower: Option<F.State>, sent: seq<nat>, era: Era, eras: seq<Era>)
  {
    if world.Fetching? then
      idle && follower.Some? && world.nextStep == era.start.sealed + 1 && Lives(follower.value, era, [])
    else if generation == 0 then
      follower.None? && idle && sent == []
    else
      && follower.Some? && eras != [] && eras[|eras| - 1] == era
      && whole != [] && whole[|whole| - 1].first == era.start.sealed + 1
      && Lives(follower.value, era, whole[|whole| - 1].moves)
      && (if waits then sent == [] || sent[|sent| - 1] < generation
          else sent != [] && sent[|sent| - 1] == generation)
  }

  function Whole(log: seq<ToHook>, outbox: seq<ToHook>): seq<Segment> { FeedAll(Heard(log), outbox) }

  ghost predicate NowCurrent(log: seq<ToHook>, b: Bridge, sent: seq<nat>, era: Era, eras: seq<Era>) {
    Current(Whole(log, b.outbox), !L.NoLoad(b.outbox), Idle(b.outbox), b.world, b.loadGeneration, b.follower, sent, era, eras)
  }

  ghost predicate Sent(segments: seq<Segment>, sent: seq<nat>, eras: seq<Era>) {
    Numbered(segments, sent, eras) && AllFollow(segments, sent, eras)
  }

  ghost predicate Refines(s: Sys) {
    && Sent(Heard(s.log), s.sent, s.eras) && |s.eras| == s.b.loadGeneration
    && Tidy(s.b.outbox) && NowCurrent(s.log, s.b, s.sent, s.era, s.eras)
  }

  // ---- Each step keeps it ----------------------------------------------------------------

  /** The outbox was rewritten without touching what moves the game. */
  lemma Rewritten(s: Sys, t: Sys)
    requires Refines(s)
    requires t.log == s.log && t.sent == s.sent && t.eras == s.eras && t.era == s.era
    requires t.b.world == s.b.world && t.b.loadGeneration == s.b.loadGeneration && t.b.follower == s.b.follower
    requires Tidy(t.b.outbox) && (L.NoLoad(t.b.outbox) <==> L.NoLoad(s.b.outbox)) && (Idle(s.b.outbox) ==> Idle(t.b.outbox))
    requires Whole(s.log, t.b.outbox) == Whole(s.log, s.b.outbox)
    ensures Refines(t)
  {
  }

  lemma QueueNeutral(s: Sys, t: Sys, m: ToHook)
    requires Refines(s) && !Moves(m)
    requires t.log == s.log && t.sent == s.sent && t.eras == s.eras && t.era == s.era
    requires t.b.world == s.b.world && t.b.loadGeneration == s.b.loadGeneration && t.b.follower == s.b.follower
    requires t.b.outbox == s.b.outbox + [m]
    ensures Refines(t)
  {
    TidyAppend(s.b.outbox, [m]);
    L.Appended(s.b.outbox, [m]);
    FeedOne(Heard(s.log), s.b.outbox, m);
    Rewritten(s, t);
  }

  lemma Filtered(s: Sys, t: Sys, keep: ToHook -> bool)
    requires Refines(s) && forall m :: Moves(m) ==> keep(m)
    requires t.log == s.log && t.sent == s.sent && t.eras == s.eras && t.era == s.era
    requires t.b.world == s.b.world && t.b.loadGeneration == s.b.loadGeneration && t.b.follower == s.b.follower
    requires t.b.outbox == O.Keep(s.b.outbox, keep)
    ensures Refines(t)
  {
    TidyKept(s.b.outbox, keep);
    O.KeepOnly(s.b.outbox, keep);
    L.OneLoadKept(s.b.outbox, keep, 0);
    FeedKeep(Heard(s.log), s.b.outbox, keep);
    Rewritten(s, t);
  }

  lemma SayRefines(s: Sys, kind: nat, carried: nat)
    requires Refines(s)
    ensures Refines(Telling(s, kind, carried))
  {
    QueueNeutral(s, Telling(s, kind, carried), Other(kind, carried));
  }

  lemma ShowRefines(s: Sys, from: Player, preview: Option<seq<Byte>>)
    requires Refines(s)
    ensures Refines(Showed(s, from, preview))
  {
    if s.b.begun && s.b.world.Ready? {
      var u := s.(b := s.b.(outbox := O.Keep(s.b.outbox, O.NotPreviewOf(from))));
      Filtered(s, u, O.NotPreviewOf(from));
      QueueNeutral(u, Showed(s, from, preview), ToHook.Preview(from, preview));
    }
  }

  lemma LobbyRefines(s: Sys, carried: nat)
    requires Refines(s)
    ensures Refines(LobbyTold(s, carried))
  {
    var u := s.(b := s.b.(outbox := O.Keep(s.b.outbox, NotLobby())));
    Filtered(s, u, NotLobby());
    QueueNeutral(u, LobbyTold(s, carried), Lobby(carried));
  }

  /** What is sent for a world that is void keeps following its era. */
  lemma Voided(s: Sys, b: Bridge)
    requires b.outbox == s.b.outbox
    ensures Idle(VoidWorld(b).outbox)
    ensures FeedAll(Heard(s.log), VoidWorld(b).outbox) == Heard(s.log)
  {
    O.KeepOnly(b.outbox, Stays());
    FeedIdle(Heard(s.log), VoidWorld(b).outbox);
  }

  lemma ReloadRefines(s: Sys, t: Sys, b: Bridge, file: Option<string>, f: F.State, era: Era)
    requires Sent(Heard(s.log), s.sent, s.eras) && |s.eras| == s.b.loadGeneration && b.outbox == s.b.outbox && b.loadGeneration == s.b.loadGeneration && b.follower == Some(f)
    requires OrderLoad(b, file, era.start.sealed + 1) == Ok(t.b)
    requires Lives(f, era, [])
    requires t.log == s.log && t.sent == s.sent && t.era == era && t.eras == s.eras + [era]
    ensures Refines(t)
  {
    var idle, l := VoidWorld(b).outbox, Load(file, era.start.sealed + 1);
    Voided(s, b);
    TidyLoad(idle, l);
    FeedOne(Heard(s.log), idle, l);
    assert (idle + [l])[|idle|] == l;
    OneEraMore(Heard(s.log), s.sent, s.eras, era);
  }

  lemma OneEraMore(segments: seq<Segment>, sent: seq<nat>, eras: seq<Era>, era: Era)
    requires Sent(segments, sent, eras)
    ensures Sent(segments, sent, eras + [era])
  {
  }

  lemma RefetchRefines(s: Sys, t: Sys, b: Bridge, f: F.State, era: Era)
    requires Sent(Heard(s.log), s.sent, s.eras) && |s.eras| == s.b.loadGeneration && b.outbox == s.b.outbox && b.loadGeneration == s.b.loadGeneration && b.follower == Some(f)
    requires FetchWorld(b, true, era.start.sealed + 1) == Ok(t.b)
    requires Lives(f, era, [])
    requires t.log == s.log && t.sent == s.sent && t.era == era && t.eras == s.eras
    ensures Refines(t)
  {
    Voided(s, b);
    assert L.NoLoad(t.b.outbox);
    NoLoadTidy(t.b.outbox);
  }

  function Begun(b: Bridge, intro: nat): Bridge {
    if b.begun then b else b.(begun := true, outbox := b.outbox + [ToHook.Begin(intro)])
  }

  /** What a stream does, once the game has begun. */
  lemma StreamParts(b: Bridge, start: TurnStart, keepsWorlds: bool, intro: nat)
    requires OnStream(b, start, keepsWorlds, intro).Ok?
    ensures var c := Begun(b, intro);
            var anew := c.(follower := Some(F.New(start)));
            var r := OnStream(b, start, keepsWorlds, intro);
            if Continues(b, start) then r == Ok(c.(follower := Some(F.Restart(b.follower.value, start).value)))
            else if start.world.Some? then r == FetchWorld(anew, true, start.sealedThrough + 1)
            else r == OrderLoad(anew, None, start.sealedThrough + 1)
  {
  }

  lemma StreamRefines(s: Sys, start: TurnStart, keepsWorlds: bool, intro: nat)
    requires Refines(s) && OnStream(s.b, start, keepsWorlds, intro).Ok?
    ensures var b := OnStream(s.b, start, keepsWorlds, intro).value;
            Refines(Reordered(s, b, if Continues(s.b, start) then s.era else Era(FrontierOf(start), [])))
  {
    var t := Reordered(s, OnStream(s.b, start, keepsWorlds, intro).value,
                       if Continues(s.b, start) then s.era else Era(FrontierOf(start), []));
    // The game begins, if it has not, before anything else.
    var u := s.(b := Begun(s.b, intro));
    StreamParts(s.b, start, keepsWorlds, intro);
    BeginRefines(s, intro);
    if Continues(s.b, start) {
      ContinueRefines(u, t, start);
    } else if start.world.Some? {
      AnewFetched(u, t, start);
    } else {
      AnewLoaded(u, t, start);
    }
  }

  lemma BeginRefines(s: Sys, intro: nat)
    requires Refines(s)
    ensures Refines(s.(b := Begun(s.b, intro)))
  {
    if !s.b.begun {
      QueueNeutral(s, s.(b := Begun(s.b, intro)), ToHook.Begin(intro));
    }
  }

  /** The game over again, from the world a stream offers. */
  lemma AnewFetched(s: Sys, t: Sys, start: TurnStart)
    requires Sent(Heard(s.log), s.sent, s.eras) && |s.eras| == s.b.loadGeneration
    requires FetchWorld(s.b.(follower := Some(F.New(start))), true, start.sealedThrough + 1) == Ok(t.b)
    requires t.log == s.log && t.sent == s.sent && t.era == Era(FrontierOf(start), []) && t.eras == s.eras
    ensures Refines(t)
  {
    var era := Era(FrontierOf(start), []);
    assert era.start.sealed == start.sealedThrough;
    NewLives(start);
    RefetchRefines(s, t, s.b.(follower := Some(F.New(start))), F.New(start), era);
  }

  /** The game over again, from its first world. */
  lemma AnewLoaded(s: Sys, t: Sys, start: TurnStart)
    requires Sent(Heard(s.log), s.sent, s.eras) && |s.eras| == s.b.loadGeneration
    requires OrderLoad(s.b.(follower := Some(F.New(start))), None, start.sealedThrough + 1) == Ok(t.b)
    requires t.log == s.log && t.sent == s.sent && t.era == Era(FrontierOf(start), []) && t.eras == s.eras + [t.era]
    ensures Refines(t)
  {
    var era := Era(FrontierOf(start), []);
    assert era.start.sealed == start.sealedThrough;
    NewLives(start);
    ReloadRefines(s, t, s.b.(follower := Some(F.New(start))), None, F.New(start), era);
  }

  lemma RestartCurrent(whole: seq<Segment>, waits: bool, idle: bool, world: World, generation: nat,
                       f: F.State, sent: seq<nat>, era: Era, eras: seq<Era>, start: TurnStart)
    requires Current(whole, waits, idle, world, generation, Some(f), sent, era, eras)
    requires F.Restart(f, start).Ok?
    ensures Current(whole, waits, idle, world, generation, Some(F.Restart(f, start).value), sent, era, eras)
  {
    RestartLives(f, era, if world.Fetching? then [] else whole[|whole| - 1].moves, start);
  }

  /** Resuming changes the name of the history only. */
  lemma ContinueRefines(s: Sys, t: Sys, start: TurnStart)
    requires Refines(s) && s.b.follower.Some? && F.Restart(s.b.follower.value, start).Ok?
    requires t == s.(b := s.b.(follower := Some(F.Restart(s.b.follower.value, start).value)))
    ensures Refines(t)
  {
    RestartCurrent(Whole(s.log, s.b.outbox), !L.NoLoad(s.b.outbox), Idle(s.b.outbox), s.b.world, s.b.loadGeneration,
                   s.b.follower.value, s.sent, s.era, s.eras, start);
  }

  lemma FetchedRefines(s: Sys, attempt: nat, file: string)
    requires Refines(s)
    ensures Refines(WithSave(s, attempt, file))
  {
    if s.b.world.Fetching? && attempt == s.b.world.attempt {
      if OrderLoad(s.b, Some(file), s.b.world.nextStep).Ok? {
        SaveRefines(s, file);
      } else {
        Elsewhere(s, WithSave(s, attempt, file));
      }
    } else {
      Elsewhere(s, WithSave(s, attempt, file));
    }
  }

  /** The save fetched for the present attempt is ordered. */
  lemma SaveRefines(s: Sys, file: string)
    requires Refines(s) && s.b.world.Fetching? && OrderLoad(s.b, Some(file), s.b.world.nextStep).Ok?
    ensures Refines(WithSave(s, s.b.world.attempt, file))
  {
    ReloadRefines(s, WithSave(s, s.b.world.attempt, file), s.b, Some(file), s.b.follower.value, s.era);
  }

  lemma EraGrows(segments: seq<Segment>, sent: seq<nat>, eras: seq<Era>, turn: Turn)
    requires Sent(segments, sent, eras) && eras != []
    requires var era := eras[|eras| - 1]; Fits(AfterAll(era.start, era.turns), turn)
    ensures var era := eras[|eras| - 1];
            var more := eras[|eras| - 1 := era.(turns := era.turns + [turn])];
            Sent(segments, sent, more)
  {
    var era := eras[|eras| - 1];
    var more := eras[|eras| - 1 := era.(turns := era.turns + [turn])];
    forall i | 0 <= i < |sent| ensures Follows(segments[i], more[sent[i] - 1]) {
      if sent[i] == |eras| {
        MoreTurnsFollow(segments[i], era, turn);
      }
    }
  }

  lemma TurnCurrent(whole: seq<Segment>, waits: bool, idle: bool, world: World, generation: nat,
                    f: F.State, sent: seq<nat>, era: Era, eras: seq<Era>, turn: Turn)
    requires Current(whole, waits, idle, world, generation, Some(f), sent, era, eras)
    requires F.Accept(f, turn).Ok?
    ensures var after := era.(turns := era.turns + [turn]);
            && Fits(AfterAll(era.start, era.turns), turn)
            && Current(whole, waits, idle, world, generation, Some(F.Accept(f, turn).value), sent, after,
                       if world.Fetching? || eras == [] then eras else eras[|eras| - 1 := after])
  {
    var moves := if world.Fetching? then [] else whole[|whole| - 1].moves;
    assert Lives(f, era, moves);
    AcceptedTurn(f, turn);
    TurnLives(f, F.Accept(f, turn).value, era, moves, turn);
  }

  /** A turn accepted: the follower and its era, before what it may say of the speed. */
  lemma TurnTaken(s: Sys, t: Sys, turn: Turn)
    requires Refines(s) && s.b.follower.Some? && F.Accept(s.b.follower.value, turn).Ok?
    requires t.era == s.era.(turns := s.era.turns + [turn])
    requires t.b == s.b.(follower := Some(F.Accept(s.b.follower.value, turn).value))
    requires t.log == s.log && t.sent == s.sent
    requires t.eras == if s.b.world.Fetching? || s.eras == [] then s.eras else s.eras[|s.eras| - 1 := t.era]
    ensures Refines(t)
  {
    TurnCurrent(Whole(s.log, s.b.outbox), !L.NoLoad(s.b.outbox), Idle(s.b.outbox), s.b.world, s.b.loadGeneration,
                s.b.follower.value, s.sent, s.era, s.eras, turn);
    TurnSent(s, turn);
  }

  lemma TurnSent(s: Sys, turn: Turn)
    requires Refines(s) && s.b.follower.Some? && Fits(AfterAll(s.era.start, s.era.turns), turn)
    ensures Sent(Heard(s.log), s.sent, if s.b.world.Fetching? || s.eras == [] then s.eras
                                       else s.eras[|s.eras| - 1 := s.era.(turns := s.era.turns + [turn])])
  {
    if !s.b.world.Fetching? && s.eras != [] {
      EraGrows(Heard(s.log), s.sent, s.eras, turn);
    }
  }

  /** The follower and its era with one turn more. */
  function WithTurn(s: Sys, turn: Turn): Sys
    requires s.b.follower.Some? && F.Accept(s.b.follower.value, turn).Ok?
  {
    var era := s.era.(turns := s.era.turns + [turn]);
    s.(b := s.b.(follower := Some(F.Accept(s.b.follower.value, turn).value)), era := era,
       eras := if s.b.world.Fetching? || s.eras == [] then s.eras else s.eras[|s.eras| - 1 := era])
  }

  lemma TurnNext(s: Sys, turn: Turn)
    requires s.b.follower.Some? && F.Accept(s.b.follower.value, turn).Ok?
    ensures var u, speed := WithTurn(s, turn), F.Accept(s.b.follower.value, turn).value.speed;
            Turned(s, turn) == if s.b.speed != Some(speed) then Saying(u, speed) else u
  {
  }

  /** The hook is told a new speed. */
  function Saying(s: Sys, speed: nat): Sys {
    s.(b := s.b.(speed := Some(speed), outbox := s.b.outbox + [ToHook.Speed(speed)]))
  }

  lemma SayingRefines(s: Sys, speed: nat)
    requires Refines(s)
    ensures Refines(Saying(s, speed))
  {
    QueueNeutral(s, Saying(s, speed), ToHook.Speed(speed));
  }

  lemma TurnRefines(s: Sys, turn: Turn)
    requires Refines(s)
    ensures Refines(Turned(s, turn))
  {
    if s.b.follower.Some? && F.Accept(s.b.follower.value, turn).Ok? {
      TurnTaken(s, WithTurn(s, turn), turn);
      SayingRefines(WithTurn(s, turn), F.Accept(s.b.follower.value, turn).value.speed);
      TurnNext(s, turn);
    } else {
      Elsewhere(s, Turned(s, turn));
    }
  }

  /** What one pump puts is added to the latest load's segment. */
  lemma PumpCurrent(whole: seq<Segment>, after: seq<Segment>, waits: bool, waitsNow: bool, idle: bool, idleNow: bool,
                    world: World, generation: nat, f: F.State, f2: F.State, put: seq<ToHook>, sent: seq<nat>, era: Era,
                    eras: seq<Era>)
    requires Current(whole, waits, idle, world, generation, Some(f), sent, era, eras) && !world.Fetching?
    requires P.Pumped(f, f2, put) && waitsNow == waits
    requires whole != [] ==> var last := whole[|whole| - 1];
                             after == whole[|whole| - 1 := last.(moves := last.moves + put)]
    ensures Current(after, waitsNow, idleNow, world, generation, Some(f2), sent, era, eras)
  {
    PumpLives(f, era, whole[|whole| - 1].moves, f2, put);
  }

  lemma Put(log: seq<ToHook>, outbox: seq<ToHook>, put: seq<ToHook>)
    requires Whole(log, outbox) != [] && Tidy(outbox) && forall m <- put :: m.Apply? || m.Release?
    ensures var whole := Whole(log, outbox);
            var last := whole[|whole| - 1];
            Whole(log, outbox + put) == whole[|whole| - 1 := last.(moves := last.moves + put)]
    ensures Tidy(outbox + put) && (L.NoLoad(outbox + put) <==> L.NoLoad(outbox))
  {
    FeedAppend(Heard(log), outbox, put);
    FeedMoves(Whole(log, outbox), put);
    TidyAppend(outbox, put);
    L.Appended(outbox, put);
  }

  /** The latest load's segment and what the follower has left, as pumping moves on. */
  lemma PlayCurrent(log: seq<ToHook>, outbox: seq<ToHook>, put: seq<ToHook>, world: World, generation: nat,
                    f: F.State, f2: F.State, sent: seq<nat>, era: Era, eras: seq<Era>)
    requires Tidy(outbox) && !world.Fetching? && P.Pumped(f, f2, put)
    requires Current(Whole(log, outbox), !L.NoLoad(outbox), Idle(outbox), world, generation, Some(f), sent, era, eras)
    ensures Tidy(outbox + put)
    ensures Current(Whole(log, outbox + put), !L.NoLoad(outbox + put), Idle(outbox + put), world, generation, Some(f2), sent,
                    era, eras)
  {
    Put(log, outbox, put);
    PumpCurrent(Whole(log, outbox), Whole(log, outbox + put), !L.NoLoad(outbox), !L.NoLoad(outbox + put), Idle(outbox),
                Idle(outbox + put), world, generation, f, f2, put, sent, era, eras);
  }

  lemma FollowerValid(s: Sys)
    requires Refines(s) && s.b.follower.Some?
    ensures F.Valid(s.b.follower.value)
  {
  }

  lemma PlayedRefines(s: Sys, put: seq<ToHook>, f2: F.State)
    requires Refines(s) && !s.b.world.Fetching? && s.b.follower.Some? && P.Pumped(s.b.follower.value, f2, put)
    ensures Refines(s.(b := s.b.(follower := Some(f2), outbox := s.b.outbox + put)))
  {
    PlayCurrent(s.log, s.b.outbox, put, s.b.world, s.b.loadGeneration, s.b.follower.value, f2, s.sent, s.era, s.eras);
  }

  lemma PlayRefines(s: Sys, due: nat -> Option<nat>, now: nat)
    requires Refines(s)
    ensures Refines(Played(s, due, now))
  {
    if !s.b.world.Fetching? && s.b.follower.Some? {
      var r := P.PumpOnce(s.b.follower.value, O.Weights(s.b.outbox), due, now);
      PlayedRefines(s, r.put, r.follower) by {
        FollowerValid(s);
        P.PumpRefines(s.b.follower.value, O.Weights(s.b.outbox), due, now);
      }
    }
  }

  // ---- Sending -------------------------------------------------------------------------

  lemma SentPart(log: seq<ToHook>, outbox: seq<ToHook>, m: ToHook, rest: seq<ToHook>)
    requires outbox == [m] + rest
    ensures Heard(log + [m]) == Feed(Heard(log), m)
    ensures Whole(log + [m], rest) == Whole(log, outbox)
  {
    FeedOne([], log, m);
    assert outbox[0] == m && outbox[1..] == rest;
  }

  /** A segment that grew still follows its era, when the whole does. */
  lemma GrownFollows(segments: seq<Segment>, grown: seq<Segment>, sent: seq<nat>, eras: seq<Era>, era: Era)
    requires Sent(segments, sent, eras) && sent != [] && sent[|sent| - 1] == |eras| && eras[|eras| - 1] == era
    requires |grown| == |segments| && forall i :: 0 <= i < |segments| - 1 ==> grown[i] == segments[i]
    requires grown != [] && Follows(grown[|grown| - 1], era)
    ensures Sent(grown, sent, eras)
  {
  }

  /** Without a load among what waits, it is all for the latest segment sent. */
  lemma LastExtends(logged: seq<Segment>, rest: seq<ToHook>)
    requires L.NoLoad(rest) && logged != []
    ensures var whole := FeedAll(logged, rest);
            && |whole| == |logged|
            && whole[|whole| - 1].first == logged[|logged| - 1].first
            && logged[|logged| - 1].moves <= whole[|whole| - 1].moves
  {
    FeedExtends(logged, rest);
    NoLoadFeed(logged, rest);
  }

  lemma MoveHeard(log: seq<ToHook>, m: ToHook)
    requires Moves(m) && !m.Load?
    ensures |Heard(log + [m])| == |Heard(log)|
    ensures forall i :: 0 <= i < |Heard(log)| - 1 ==> Heard(log + [m])[i] == Heard(log)[i]
  {
    FeedOne([], log, m);
  }

  /** Without a load among what waits, the latest load sent is the one followed. */
  lemma SentCurrent(whole: seq<Segment>, world: World, generation: nat, follower: Option<F.State>, sent: seq<nat>, era: Era,
                    eras: seq<Era>)
    requires Current(whole, false, false, world, generation, follower, sent, era, eras)
    ensures whole != [] && Follows(whole[|whole| - 1], era) && eras != [] && eras[|eras| - 1] == era
    ensures sent != [] && sent[|sent| - 1] == generation
  {
    LivesFollows(follower.value, era, whole[|whole| - 1]);
  }

  /** What is sent of the latest segment follows its era, as the whole of it does. */
  lemma PartFollows(logged: seq<Segment>, rest: seq<ToHook>, era: Era)
    requires L.NoLoad(rest) && logged != []
    requires var whole := FeedAll(logged, rest); whole != [] && Follows(whole[|whole| - 1], era)
    ensures Follows(logged[|logged| - 1], era)
  {
    var whole := FeedAll(logged, rest);
    LastExtends(logged, rest);
    LessFollows(logged[|logged| - 1], whole[|whole| - 1], era);
  }

  lemma NowFollows(logged: seq<Segment>, rest: seq<ToHook>, world: World, generation: nat, follower: Option<F.State>,
                   sent: seq<nat>, era: Era, eras: seq<Era>)
    requires L.NoLoad(rest) && logged != []
    requires Current(FeedAll(logged, rest), false, false, world, generation, follower, sent, era, eras)
    ensures Follows(logged[|logged| - 1], era)
    ensures sent != [] && sent[|sent| - 1] == generation && eras != [] && eras[|eras| - 1] == era
  {
    SentCurrent(FeedAll(logged, rest), world, generation, follower, sent, era, eras);
    PartFollows(logged, rest, era);
  }

  /** An event or a release leaves: it adds to the segment of the latest load. */
  lemma SendMove(log: seq<ToHook>, outbox: seq<ToHook>, m: ToHook, rest: seq<ToHook>, world: World, follower: Option<F.State>,
                 sent: seq<nat>, era: Era, eras: seq<Era>)
    requires outbox == [m] + rest && Moves(m) && !m.Load? && L.NoLoad(rest) && Heard(log) != []
    requires Sent(Heard(log), sent, eras)
    requires Current(Whole(log, outbox), false, false, world, |eras|, follower, sent, era, eras)
    ensures Sent(Heard(log + [m]), sent, eras)
  {
    MoveHeard(log, m);
    SentPart(log, outbox, m, rest);
    NowFollows(Heard(log + [m]), rest, world, |eras|, follower, sent, era, eras);
    GrownFollows(Heard(log), Heard(log + [m]), sent, eras, era);
  }

  lemma MoveWaits(outbox: seq<ToHook>, m: ToHook, rest: seq<ToHook>)
    requires Tidy(outbox) && outbox == [m] + rest && Moves(m) && !m.Load?
    ensures L.NoLoad(outbox) && L.NoLoad(rest) && !Idle(outbox)
  {
    assert m in outbox && outbox[0] == m && outbox[1..] == rest;
    L.NoLoadSplit(outbox);
  }

  lemma HeardSome(s: Sys)
    requires Refines(s) && L.NoLoad(s.b.outbox) && !Idle(s.b.outbox)
    ensures Heard(s.log) != []
  {
    SentCurrent(Whole(s.log, s.b.outbox), s.b.world, s.b.loadGeneration, s.b.follower, s.sent, s.era, s.eras);
  }

  lemma SentStill(s: Sys, m: ToHook, rest: seq<ToHook>)
    requires Refines(s) && s.b.outbox == [m] + rest && !m.Load?
    ensures Sent(Heard(s.log + [m]), s.sent, s.eras)
  {
    if Moves(m) {
      MoveWaits(s.b.outbox, m, rest);
      HeardSome(s);
      SendMove(s.log, s.b.outbox, m, rest, s.b.world, s.b.follower, s.sent, s.era, s.eras);
    } else {
      SentPart(s.log, s.b.outbox, m, rest);
    }
  }

  /** The same world is current when fewer messages wait. */
  lemma LessWaits(whole: seq<Segment>, waits: bool, idle: bool, idleNow: bool, world: World, generation: nat,
                  follower: Option<F.State>, sent: seq<nat>, era: Era, eras: seq<Era>)
    requires Current(whole, waits, idle, world, generation, follower, sent, era, eras) && (idle ==> idleNow)
    ensures Current(whole, waits, idleNow, world, generation, follower, sent, era, eras)
  {
  }

  lemma WaitsStill(outbox: seq<ToHook>, m: ToHook, rest: seq<ToHook>)
    requires Tidy(outbox) && outbox == [m] + rest && !m.Load?
    ensures Tidy(rest) && (L.NoLoad(rest) <==> L.NoLoad(outbox)) && (Idle(outbox) ==> Idle(rest))
  {
    L.NoLoadSplit(outbox);
    assert outbox[0] == m && outbox[1..] == rest && forall x <- rest :: x in outbox;
  }

  lemma CurrentStill(s: Sys, m: ToHook, rest: seq<ToHook>)
    requires Refines(s) && s.b.outbox == [m] + rest && !m.Load?
    ensures Tidy(rest) && NowCurrent(s.log + [m], s.b.(outbox := rest), s.sent, s.era, s.eras)
  {
    WaitsStill(s.b.outbox, m, rest);
    SentPart(s.log, s.b.outbox, m, rest);
    LessWaits(Whole(s.log, s.b.outbox), !L.NoLoad(s.b.outbox), Idle(s.b.outbox), Idle(rest), s.b.world, s.b.loadGeneration,
              s.b.follower, s.sent, s.era, s.eras);
  }

  /** A message other than a load leaves. */
  lemma SendMoveRefines(s: Sys, t: Sys)
    requires Refines(s) && s.b.outbox != [] && !s.b.outbox[0].Load?
    requires t.log == s.log + [s.b.outbox[0]] && t.sent == s.sent && t.era == s.era && t.eras == s.eras
    requires t.b == s.b.(outbox := s.b.outbox[1..])
    ensures Refines(t)
  {
    var m, rest := s.b.outbox[0], s.b.outbox[1..];
    SentStill(s, m, rest);
    CurrentStill(s, m, rest);
  }

  lemma {:induction false} NoLoadFeed(segments: seq<Segment>, messages: seq<ToHook>)
    requires L.NoLoad(messages)
    ensures |FeedAll(segments, messages)| == |segments|
    decreases |messages|
  {
    if messages != [] {
      assert messages[0] in messages && forall m <- messages[1..] :: m in messages;
      NoLoadFeed(Feed(segments, messages[0]), messages[1..]);
    }
  }

  lemma OneSentMore(segments: seq<Segment>, grown: seq<Segment>, sent: seq<nat>, eras: seq<Era>, segment: Segment, era: Era)
    requires grown == segments + [segment]
    requires Sent(segments, sent, eras) && eras != [] && eras[|eras| - 1] == era
    requires sent == [] || sent[|sent| - 1] < |eras|
    requires Follows(segment, era)
    ensures Sent(grown, sent + [|eras|], eras)
  {
    OneMoreNumber(segments, grown, sent, eras);
  }

  lemma OneMoreNumber(segments: seq<Segment>, grown: seq<Segment>, sent: seq<nat>, eras: seq<Era>)
    requires |grown| == |segments| + 1 && Numbered(segments, sent, eras) && eras != []
    requires sent == [] || sent[|sent| - 1] < |eras|
    ensures Numbered(grown, sent + [|eras|], eras)
  {
    var more := sent + [|eras|];
    forall i, j | 0 <= i < j < |more| ensures more[i] < more[j] {
      if j == |sent| && i < |sent| - 1 {
        assert sent[i] < sent[|sent| - 1];
      }
    }
  }

  lemma LoadCurrent(whole: seq<Segment>, idle: bool, world: World, generation: nat,
                    follower: Option<F.State>, sent: seq<nat>, era: Era, eras: seq<Era>)
    requires Current(whole, true, false, world, generation, follower, sent, era, eras)
    ensures Current(whole, false, idle, world, generation, follower, sent + [generation], era, eras)
    ensures Follows(whole[|whole| - 1], era) && eras[|eras| - 1] == era
    ensures sent == [] || sent[|sent| - 1] < generation
  {
    LivesFollows(follower.value, era, whole[|whole| - 1]);
  }

  /** The segment a load begins follows the era of the load, as all of it does. */
  lemma BegunFollows(s: Sys, m: ToHook, rest: seq<ToHook>)
    requires Refines(s) && s.b.outbox == [m] + rest && m.Load? && L.NoLoad(rest)
    ensures Follows(SegmentOf(m), s.era)
  {
    NothingYetFollows(Whole(s.log, s.b.outbox), s.era, m) by {
      WaitingFollows(s, m, rest);
      WholeBegins(s, m, rest);
    }
  }

  lemma WaitingFollows(s: Sys, m: ToHook, rest: seq<ToHook>)
    requires Refines(s) && s.b.outbox == [m] + rest && m.Load?
    ensures var whole := Whole(s.log, s.b.outbox); whole != [] && Follows(whole[|whole| - 1], s.era)
  {
    LoadTidy(s.b.outbox);
    LoadCurrent(Whole(s.log, s.b.outbox), false, s.b.world, s.b.loadGeneration, s.b.follower, s.sent, s.era, s.eras);
  }

  lemma WaitingNumbered(s: Sys)
    requires Refines(s) && s.b.outbox != [] && s.b.outbox[0].Load?
    ensures Sent(Heard(s.log), s.sent, s.eras) && s.eras != [] && s.eras[|s.eras| - 1] == s.era
    ensures s.b.loadGeneration == |s.eras| && (s.sent == [] || s.sent[|s.sent| - 1] < |s.eras|)
  {
    LoadTidy(s.b.outbox);
    LoadCurrent(Whole(s.log, s.b.outbox), false, s.b.world, s.b.loadGeneration, s.b.follower, s.sent, s.era, s.eras);
  }

  lemma LoadSent(s: Sys)
    requires Refines(s) && s.b.outbox != [] && s.b.outbox[0].Load?
    ensures Sent(Heard(s.log + [s.b.outbox[0]]), s.sent + [s.b.loadGeneration], s.eras)
  {
    WaitingNumbered(s);
    OneLoadSent(s.log, s.b.outbox[0], s.sent, s.eras, s.era) by {
      LoadTidy(s.b.outbox);
      BegunFollows(s, s.b.outbox[0], s.b.outbox[1..]);
    }
  }

  lemma OneLoadSent(log: seq<ToHook>, m: ToHook, sent: seq<nat>, eras: seq<Era>, era: Era)
    requires Sent(Heard(log), sent, eras) && eras != [] && eras[|eras| - 1] == era
    requires sent == [] || sent[|sent| - 1] < |eras|
    requires m.Load? && Follows(SegmentOf(m), era)
    ensures Sent(Heard(log + [m]), sent + [|eras|], eras)
  {
    FeedOne([], log, m);
    OneSentMore(Heard(log), Heard(log + [m]), sent, eras, SegmentOf(m), era);
  }

  lemma LoadNowCurrent(s: Sys)
    requires Refines(s) && s.b.outbox != [] && s.b.outbox[0].Load?
    ensures var m, rest := s.b.outbox[0], s.b.outbox[1..];
            && Tidy(rest) && L.NoLoad(rest)
            && Current(Whole(s.log + [m], rest), false, Idle(rest), s.b.world, s.b.loadGeneration, s.b.follower,
                       s.sent + [s.b.loadGeneration], s.era, s.eras)
  {
    var m, rest := s.b.outbox[0], s.b.outbox[1..];
    LoadTidy(s.b.outbox);
    LoadCurrent(Whole(s.log, s.b.outbox), Idle(rest), s.b.world, s.b.loadGeneration, s.b.follower, s.sent, s.era, s.eras);
    LoadBegins(s, m, rest);
  }

  /** A load leaves: its segment begins. */
  lemma SendLoadRefines(s: Sys, t: Sys)
    requires Refines(s) && s.b.outbox != [] && s.b.outbox[0].Load?
    requires t.log == s.log + [s.b.outbox[0]] && t.sent == s.sent + [s.b.loadGeneration] && t.era == s.era && t.eras == s.eras
    requires t.b == s.b.(outbox := s.b.outbox[1..], sentLoads := t.b.sentLoads)
    ensures Refines(t)
  {
    LoadSent(s);
    LoadNowCurrent(s);
  }

  lemma NothingYetFollows(whole: seq<Segment>, era: Era, load: ToHook)
    requires whole != [] && Follows(whole[|whole| - 1], era) && load.Load? && whole[|whole| - 1].first == load.nextStep
    ensures Follows(SegmentOf(load), era)
  {
    LessFollows(SegmentOf(load), whole[|whole| - 1], era);
  }

  lemma LoadTidy(outbox: seq<ToHook>)
    requires Tidy(outbox) && outbox != [] && outbox[0].Load?
    ensures Tidy(outbox[1..]) && L.NoLoad(outbox[1..]) && !L.NoLoad(outbox) && !Idle(outbox)
    ensures outbox == [outbox[0]] + outbox[1..]
  {
    L.NoLoadSplit(outbox);
    assert outbox[0] in outbox;
  }

  lemma WholeBegins(s: Sys, m: ToHook, rest: seq<ToHook>)
    requires s.b.outbox == [m] + rest && m.Load? && L.NoLoad(rest)
    ensures var whole := Whole(s.log, s.b.outbox); whole != [] && whole[|whole| - 1].first == m.nextStep
  {
    LoadBegins(s, m, rest);
  }

  lemma LoadBegins(s: Sys, m: ToHook, rest: seq<ToHook>)
    requires s.b.outbox == [m] + rest && m.Load? && L.NoLoad(rest)
    ensures var whole := Whole(s.log, s.b.outbox);
            && whole != [] && whole[|whole| - 1].first == m.nextStep
            && Heard(s.log + [m]) == Heard(s.log) + [SegmentOf(m)]
            && Whole(s.log + [m], rest) == whole
  {
    var logged := Heard(s.log + [m]);
    SentPart(s.log, s.b.outbox, m, rest);
    FeedExtends(logged, rest);
    NoLoadFeed(logged, rest);
  }

  /** Hearing the hook does not touch what the game is told, except that the hello
      goes first; a world answered is ready, no longer loading. */
  lemma ReadRefines(s: Sys, t: Sys, m: ToAgent)
    requires Refines(s) && Hear(s.b, m).Ok?
    requires t.b == Hear(s.b, m).value.0 && t.log == s.log && t.sent == s.sent && t.era == s.era && t.eras == s.eras
    ensures Refines(t)
  {
    if m.HookHello? {
      HelloRefines(s, t);
    } else {
      HeardKeepsOutbox(s.b, m);
    }
  }

  lemma HelloRefines(s: Sys, t: Sys)
    requires Refines(s) && Hear(s.b, HookHello).Ok?
    requires t.b == Hear(s.b, HookHello).value.0 && t.log == s.log && t.sent == s.sent && t.era == s.era && t.eras == s.eras
    ensures Refines(t)
  {
    L.HelloLoadsNothing(s.b.outbox);
    assert t.b.outbox[0] == Hello && t.b.outbox[1..] == s.b.outbox;
    assert forall x <- t.b.outbox :: x == Hello || x in s.b.outbox;
    Rewritten(s, t);
  }

  lemma HeardKeepsOutbox(b: Bridge, m: ToAgent)
    requires Hear(b, m).Ok? && !m.HookHello?
    ensures var c := Hear(b, m).value.0;
            && c.outbox == b.outbox && c.follower == b.follower && c.loadGeneration == b.loadGeneration
            && (c.world == b.world || (b.world.Loading? && c.world.Ready?))
  {
  }

  /** Steps that touch neither the agent's side nor what was sent. */
  lemma Elsewhere(s: Sys, t: Sys)
    requires Refines(s) && t.b == s.b && t.log == s.log && t.sent == s.sent && t.era == s.era && t.eras == s.eras
    ensures Refines(t)
  {
  }

  lemma SendRefines(s: Sys)
    requires Refines(s)
    ensures Refines(SentOut(s))
  {
    if s.b.hookReady && s.b.outbox != [] {
      if s.b.outbox[0].Load? {
        SendLoadRefines(s, SentOut(s));
      } else {
        SendMoveRefines(s, SentOut(s));
      }
    }
  }

  lemma HearRefines(s: Sys)
    requires Refines(s)
    ensures Refines(Listened(s))
  {
    if s.held + s.back != [] {
      var m := (s.held + s.back)[0].message;
      if Hear(s.b, m).Ok? {
        ReadRefines(s, Listened(s), m);
      } else {
        Elsewhere(s, Listened(s));
      }
    }
  }

  lemma StreamedRefines(s: Sys, start: TurnStart, keepsWorlds: bool, intro: nat)
    requires Refines(s)
    ensures Refines(Streamed(s, start, keepsWorlds, intro))
  {
    if OnStream(s.b, start, keepsWorlds, intro).Ok? {
      StreamRefines(s, start, keepsWorlds, intro);
    } else {
      Elsewhere(s, Streamed(s, start, keepsWorlds, intro));
    }
  }

  lemma OnlyTheLinkMoves(s: Sys, step: Step)
    requires step.Away? || step.HookGreets? || step.HookReads? || step.HookLoads? || step.HookTells?
    ensures var t := Next(s, step);
            t.b == s.b && t.log == s.log && t.sent == s.sent && t.era == s.era && t.eras == s.eras
  {
  }

  lemma OtherRefines(s: Sys, step: Step)
    requires Refines(s) && (step.Away? || step.HookGreets? || step.HookReads? || step.HookLoads? || step.HookTells?)
    ensures Refines(Next(s, step))
  {
    OnlyTheLinkMoves(s, step);
    Elsewhere(s, Next(s, step));
  }

  lemma NextRefines(s: Sys, step: Step)
    requires Refines(s)
    ensures Refines(Next(s, step))
  {
    if s.over {
      return;
    }
    match step
    case Stream(start, keepsWorlds, intro) => StreamedRefines(s, start, keepsWorlds, intro);
    case TakeTurn(turn) => TurnRefines(s, turn);
    case Fetched(attempt, file) => FetchedRefines(s, attempt, file);
    case Play(due, now) => PlayRefines(s, due, now);
    case _ => MessageRefines(s, step);
  }

  lemma MessageRefines(s: Sys, step: Step)
    requires Refines(s) && !s.over && !step.Stream? && !step.TakeTurn? && !step.Fetched? && !step.Play?
    ensures Refines(Next(s, step))
  {
    match step
    case Say(kind, carried) => SayRefines(s, kind, carried);
    case Show(from, preview) => ShowRefines(s, from, preview);
    case LobbyNews(carried) => LobbyRefines(s, carried);
    case Send => SendRefines(s);
    case Read => HearRefines(s);
    case _ => OtherRefines(s, step);
  }

  // ---- Every run ------------------------------------------------------------------------

  /** Refines at every moment until `k`. */
  ghost predicate KeepsRefining(run: seq<Sys>, k: nat)
    requires k < |run|
  {
    (k > 0 ==> KeepsRefining(run, k - 1)) && Refines(run[k])
  }

  lemma OneStepRefines(run: seq<Sys>, steps: seq<Step>, k: nat)
    requires IsRun(run, steps) && 0 < k < |run| && KeepsRefining(run, k - 1)
    ensures KeepsRefining(run, k)
  {
    assert Moved(run, steps, k - 1);
    NextRefines(run[k - 1], steps[k - 1]);
  }

  lemma {:induction false} AlwaysRefines(run: seq<Sys>, steps: seq<Step>, k: nat)
    requires IsRun(run, steps) && k < |run|
    ensures KeepsRefining(run, k)
  {
    if k == 0 {
      BeginsRefining();
    } else {
      AlwaysRefines(run, steps, k - 1);
      OneStepRefines(run, steps, k);
    }
  }

  lemma EveryRunRefines(run: seq<Sys>, steps: seq<Step>, k: nat)
    requires IsRun(run, steps) && k < |run|
    ensures Refines(run[k])
  {
    AlwaysRefines(run, steps, k);
  }

  lemma BeginsRefining()
    ensures Refines(INITIAL)
  {
  }

  /** A segment begins at its era's first step and is a part, from its beginning, of
      the canonical trace; a gate refuses none of it, and the game does exactly it. */
  ghost predicate DoesTheTrace(segment: Segment, era: Era) {
    && segment.first == era.start.sealed + 1
    && P.Expand(segment.moves, era.start.sealed) <= Canonical(era.start, era.turns)
    && Worlds(NewGate(segment.first), segment.moves) == Ok([P.Expand(segment.moves, era.start.sealed)])
  }

  /** The main result. Whatever the hook has read of what it was sent, in whatever
      run: each load it was told is one that the run ordered, file and step; and from
      there to the next it was told a part, from its beginning, of the canonical trace
      of the turns accepted for that order. Its gate, once the load is done, refuses
      none of these events and releases, and the game does exactly that. */
  lemma TheGameDoesTheTrace(run: seq<Sys>, steps: seq<Step>, k: nat, read: nat, i: nat)
    requires IsRun(run, steps) && k < |run|
    requires read <= |run[k].log| && i < |Heard(run[k].log[..read])|
    ensures var s := run[k];
            var segment, orders := Heard(s.log[..read])[i], Ordered(run, steps, k);
            && i < |s.sent| && 1 <= s.sent[i] <= |s.eras| == |orders|
            && Load(segment.file, segment.first) == orders[s.sent[i] - 1]
            && DoesTheTrace(segment, s.eras[s.sent[i] - 1])
  {
    ReadDoesTheTrace(run[k], read, i) by {
      EveryRunRefines(run, steps, k);
    }
    LoadIsOrdered(run[k], Ordered(run, steps, k), read, i) by {
      L.EveryRunInOrder(run, steps, k);
    }
    assert |run[k].eras| == run[k].b.loadGeneration by {
      EveryRunRefines(run, steps, k);
    }
  }

  /** A segment is of the load sent in its place. */
  lemma {:induction false} HeardLoads(log: seq<ToHook>)
    ensures |Heard(log)| == |LoadsOf(log)|
    ensures forall i :: 0 <= i < |Heard(log)| ==> Load(Heard(log)[i].file, Heard(log)[i].first) == LoadsOf(log)[i]
  {
    if log != [] {
      var before, last := log[..|log| - 1], log[|log| - 1];
      assert log == before + [last];
      HeardLoads(before);
      FeedOne([], before, last);
    }
  }

  lemma LoadIsOrdered(s: Sys, orders: seq<ToHook>, read: nat, i: nat)
    requires InOrder(s, orders) && read <= |s.log| && i < |Heard(s.log[..read])|
    ensures |orders| == s.b.loadGeneration && i < |s.sent| && 1 <= s.sent[i] <= |orders|
    ensures var segment := Heard(s.log[..read])[i]; Load(segment.file, segment.first) == orders[s.sent[i] - 1]
  {
    PartHeard(s.log, read, i);
    HeardLoads(s.log);
  }

  lemma ReadDoesTheTrace(s: Sys, read: nat, i: nat)
    requires Refines(s) && read <= |s.log| && i < |Heard(s.log[..read])|
    ensures var segment := Heard(s.log[..read])[i];
            i < |s.sent| && 1 <= s.sent[i] <= |s.eras| && DoesTheTrace(segment, s.eras[s.sent[i] - 1])
  {
    PartHeard(s.log, read, i);
    SegmentFollows(s, i);
    PartPlays(Heard(s.log[..read])[i], Heard(s.log)[i], s.eras[s.sent[i] - 1]);
  }

  lemma PartPlays(part: Segment, segment: Segment, era: Era)
    requires Follows(segment, era) && part.first == segment.first && part.moves <= segment.moves
    ensures DoesTheTrace(part, era)
  {
    LessFollows(part, segment, era);
    GateTakes(part, era);
  }

  lemma PartHeard(log: seq<ToHook>, read: nat, i: nat)
    requires read <= |log| && i < |Heard(log[..read])|
    ensures var part, whole := Heard(log[..read]), Heard(log);
            i < |whole| && part[i].file == whole[i].file && part[i].first == whole[i].first && part[i].moves <= whole[i].moves
  {
    assert log == log[..read] + log[read..];
    FeedAppend([], log[..read], log[read..]);
    FeedExtends(Heard(log[..read]), log[read..]);
  }

  lemma SegmentFollows(s: Sys, i: nat)
    requires Refines(s) && i < |Heard(s.log)|
    ensures i < |s.sent| && 1 <= s.sent[i] <= |s.eras| && Follows(Heard(s.log)[i], s.eras[s.sent[i] - 1])
  {
  }

  lemma FollowsTakes(segment: Segment, era: Era)
    requires Follows(segment, era)
    ensures Takes(segment)
  {
    var told := P.Expand(segment.moves, era.start.sealed);
    CanonicalKeepsOrder(era.start, era.turns);
    assert TraceOf(era) == told + TraceOf(era)[|told|..];
    GateOrderAppend(told, TraceOf(era)[|told|..], era.start.sealed + 1);
  }

  lemma GateTakes(segment: Segment, era: Era)
    requires Follows(segment, era)
    ensures Worlds(NewGate(segment.first), segment.moves) == Ok([P.Expand(segment.moves, era.start.sealed)])
  {
    var x := segment.(moves := []);
    FollowsTakes(segment, era);
    FeedMoves([x], segment.moves);
    assert x.moves + segment.moves == segment.moves && [x][0 := segment] == [segment];
    PlaysEverySegment(x, segment.moves);
    assert AllDone([segment]) == [Done(segment)];
  }

  // ---- All that a session reads --------------------------------------------------------

  /** Nothing moves the game before its first load. */
  ghost predicate LoadFirst(log: seq<ToHook>) {
    log == [] || log[0].Load? || (!Moves(log[0]) && LoadFirst(log[1..]))
  }

  lemma {:induction false} LoadFirstOn(log: seq<ToHook>, m: ToHook)
    requires LoadFirst(log) && (Heard(log) != [] || m.Load? || !Moves(m))
    ensures LoadFirst(log + [m])
    decreases |log|
  {
    if log == [] {
      assert ([] + [m])[1..] == [];
    } else {
      assert (log + [m])[0] == log[0] && (log + [m])[1..] == log[1..] + [m];
      if !log[0].Load? {
        LoadFirstOn(log[1..], m);
      }
    }
  }

  lemma {:induction false} LoadFirstPart(log: seq<ToHook>, read: nat)
    requires LoadFirst(log) && read <= |log|
    ensures LoadFirst(log[..read])
    decreases read
  {
    if read > 0 && !log[0].Load? {
      LoadFirstPart(log[1..], read - 1);
      assert log[..read][1..] == log[1..][..read - 1];
    }
  }

  /** A segment for what comes before the first load stays as it was. */
  lemma {:induction false} BeforeFirst(x: Segment, log: seq<ToHook>)
    requires LoadFirst(log)
    ensures FeedAll([x], log) == [x] + Heard(log)
    decreases |log|
  {
    if log != [] {
      if log[0].Load? {
        FeedBehind([x], SegmentOf(log[0]), log[1..]);
        assert [] + [SegmentOf(log[0])] == [SegmentOf(log[0])];
      } else {
        BeforeFirst(x, log[1..]);
      }
    }
  }

  lemma SendLoadFirst(s: Sys)
    requires Refines(s) && LoadFirst(s.log)
    ensures LoadFirst(SentOut(s).log)
  {
    if s.b.hookReady && s.b.outbox != [] {
      var m, rest := s.b.outbox[0], s.b.outbox[1..];
      if Moves(m) && !m.Load? {
        assert s.b.outbox == [m] + rest;
        MoveWaits(s.b.outbox, m, rest);
        HeardSome(s);
      }
      LoadFirstOn(s.log, m);
    }
  }

  lemma OnlySendLogs(s: Sys, step: Step)
    requires !step.Send?
    ensures Next(s, step).log == s.log
  {
  }

  lemma {:induction false} EveryRunLoadsFirst(run: seq<Sys>, steps: seq<Step>, k: nat)
    requires IsRun(run, steps) && k < |run|
    ensures LoadFirst(run[k].log)
  {
    if k > 0 {
      EveryRunLoadsFirst(run, steps, k - 1);
      assert Moved(run, steps, k - 1);
      if steps[k - 1].Send? {
        SendLoadFirst(run[k - 1]) by {
          EveryRunRefines(run, steps, k - 1);
        }
      } else {
        OnlySendLogs(run[k - 1], steps[k - 1]);
      }
    }
  }

  /** Whatever the hook has read after its greeting, in whatever run: its gate refused
      nothing of it, and world by world the game did just what was told between one load
      and the next, nothing before the first; as long as it was not told the end. */
  lemma NothingIsRefused(run: seq<Sys>, steps: seq<Step>, k: nat, read: nat)
    requires IsRun(run, steps) && k < |run| && read <= |run[k].log|
    requires forall m <- run[k].log[..read] :: !Ends(m)
    ensures var log := run[k].log[..read];
            Worlds(NewGate(1), O.Keep(log, AtGate())) == Ok([[]] + AllDone(Heard(log)))
  {
    var log, x := run[k].log[..read], Segment(None, 1, []);
    EveryRunLoadsFirst(run, steps, k);
    LoadFirstPart(run[k].log, read);
    SegmentsTaken(run[k], read) by {
      EveryRunRefines(run, steps, k);
    }
    ReadPlays(x, log);
  }

  lemma SegmentsTaken(s: Sys, read: nat)
    requires Refines(s) && read <= |s.log|
    ensures forall x <- Heard(s.log[..read]) :: Takes(x)
  {
    var heard := Heard(s.log[..read]);
    forall i | 0 <= i < |heard| ensures Takes(heard[i]) {
      PartHeard(s.log, read, i);
      SegmentFollows(s, i);
      LessFollows(heard[i], Heard(s.log)[i], s.eras[s.sent[i] - 1]);
      FollowsTakes(heard[i], s.eras[s.sent[i] - 1]);
    }
  }

  lemma ReadPlays(x: Segment, log: seq<ToHook>)
    requires x.first == 1 && x.moves == [] && LoadFirst(log) && (forall m <- log :: !Ends(m))
    requires forall s <- Heard(log) :: Takes(s)
    ensures Worlds(NewGate(1), O.Keep(log, AtGate())) == Ok([[]] + AllDone(Heard(log)))
  {
    var gated := O.Keep(log, AtGate());
    O.KeepOnly(log, AtGate());
    FeedKeep([x], log, AtGate());
    BeforeFirst(x, log);
    PlaysEverySegment(x, gated) by {
      assert forall s <- FeedAll([x], gated) :: s == x || s in Heard(log);
    }
    NothingBefore(x, Heard(log));
  }

  /** What was told and what waits for the latest load, and what the follower owes, are the
      whole trace of the turns accepted. */
  ghost predicate OwesTheRest(s: Sys) {
    var whole := Heard(s.log + s.b.outbox);
    && s.b.follower.Some? && whole != []
    && Canonical(s.era.start, s.era.turns)
       == P.Expand(whole[|whole| - 1].moves, s.era.start.sealed) + F.Drain(s.b.follower.value)
  }

  /** Nothing owed is forgotten: while a world is ready, what the game was told,
      what waits for it and what its follower owes are the whole trace. */
  lemma NothingIsForgotten(run: seq<Sys>, steps: seq<Step>, k: nat)
    requires IsRun(run, steps) && k < |run| && run[k].b.world.Ready? && run[k].b.loadGeneration > 0
    ensures OwesTheRest(run[k])
  {
    ReadyOwesTheRest(run[k]) by {
      EveryRunRefines(run, steps, k);
    }
  }

  lemma ReadyOwesTheRest(s: Sys)
    requires Refines(s) && s.b.world.Ready? && s.b.loadGeneration > 0
    ensures OwesTheRest(s)
  {
    FeedAppend([], s.log, s.b.outbox);
  }

  /** A client resumes after the last turn it accepted on the stream it follows; not at all
      without one, or while the save that stream starts from is on its way. */
  lemma ResumesWhereItStands(run: seq<Sys>, steps: seq<Step>, k: nat)
    requires IsRun(run, steps) && k < |run|
    ensures var s := run[k];
            var next := AfterAll(s.era.start, s.era.turns).nextTurn;
            match ResumePoint(s.b)
            case None => s.b.follower.None? || s.b.world.Fetching?
            case Some(r) =>
              && s.b.follower.Some? && !s.b.world.Fetching?
              && r.afterTurn == (if next == 0 then 0 else next - 1) && r.history == s.b.follower.value.history
  {
    FollowsItsEra(run[k]) by {
      EveryRunRefines(run, steps, k);
    }
  }

  lemma FollowsItsEra(s: Sys)
    requires Refines(s)
    ensures s.b.follower.Some? ==> F.Tip(s.b.follower.value) == AfterAll(s.era.start, s.era.turns)
  {
  }

  /** Hence every game in a room runs the room's one trace: `room` is its whole log
      from `f`, and this game's load stands after `from` of its turns (0 for a new
      game, more for one that loaded a save), with the turns to `to` accepted.
      What ran before the load, then what this game was told, is how the room's
      trace begins. */
  lemma EveryGameRunsTheRoomsTrace(f: Frontier, room: seq<Turn>, from: nat, to: nat,
                                   run: seq<Sys>, steps: seq<Step>, k: nat, read: nat, i: nat)
    requires from <= to <= |room|
    requires IsRun(run, steps) && k < |run|
    requires read <= |run[k].log| && i < |Heard(run[k].log[..read])|
    requires i < |run[k].sent| && 1 <= run[k].sent[i] <= |run[k].eras|
    requires run[k].eras[run[k].sent[i] - 1] == Era(AfterAll(f, room[..from]), room[from..to])
    ensures var told := P.Expand(Heard(run[k].log[..read])[i].moves, AfterAll(f, room[..from]).sealed);
            Canonical(f, room[..from]) + told <= Canonical(f, room)
  {
    TheGameDoesTheTrace(run, steps, k, read, i);
    PartOfTheRoom(f, room, from, to, Heard(run[k].log[..read])[i]);
  }

  lemma PartOfTheRoom(f: Frontier, room: seq<Turn>, from: nat, to: nat, segment: Segment)
    requires from <= to <= |room| && DoesTheTrace(segment, Era(AfterAll(f, room[..from]), room[from..to]))
    ensures Canonical(f, room[..from]) + P.Expand(segment.moves, AfterAll(f, room[..from]).sealed) <= Canonical(f, room)
  {
    assert room[..to] == room[..from] + room[from..to];
    assert room == room[..to] + room[to..];
    CutAtTurn(f, room[..from], room[from..to]);
    CutAtTurn(f, room[..to], room[to..]);
  }
}
