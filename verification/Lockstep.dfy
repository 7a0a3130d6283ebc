/** Whole runs of a follower: whatever way turns arrive and actions are taken,
    games on the same turns do the same things in the same order. */
module Lockstep {
  import opened Protocol
  import opened Trace
  import opened FollowerSpec

  datatype Op = Take(turn: Turn) | Next | Resume(start: TurnStart)

  /** A follower with what it accepted and handed out so far. */
  datatype Run = Run(state: State, accepted: seq<Turn>, handed: seq<Action>)

  function Step(r: Run, op: Op): Run {
    match op
    case Take(turn) =>
      (match Accept(r.state, turn)
       case Ok(s) => Run(s, r.accepted + [turn], r.handed)
       case Err(_) => r)
    case Next =>
      (match NextAction(r.state)
       case (s, Some(a)) => Run(s, r.accepted, r.handed + [a])
       case (s, None) => r)
    case Resume(start) =>
      (match Restart(r.state, start)
       case Ok(s) => r.(state := s)
       case Err(_) => r)
  }

  function Exec(r: Run, ops: seq<Op>): Run
    decreases |ops|
  {
    if ops == [] then r else Step(Exec(r, ops[..|ops| - 1]), ops[|ops| - 1])
  }

  function Start(start: TurnStart): Run { Run(New(start), [], []) }

  /** What a run has handed out and what it still owes make up the canonical
      trace of the turns it accepted, and those turns are a log from the start. */
  ghost predicate OnTrace(f: Frontier, r: Run) {
    && Valid(r.state)
    && Log(f, r.accepted)
    && Tip(r.state) == AfterAll(f, r.accepted)
    && Canonical(f, r.accepted) == r.handed + Drain(r.state)
  }

  lemma TakeOnTrace(f: Frontier, r: Run, turn: Turn)
    requires OnTrace(f, r) && Accept(r.state, turn).Ok?
    ensures OnTrace(f, Run(Accept(r.state, turn).value, r.accepted + [turn], r.handed))
  {
    AcceptOwesTurn(r.state, turn);
    AcceptsExactlyTheLog(r.state, turn);
    OneMore(f, r.accepted, turn);
    Associates(r.handed, Drain(r.state), TurnTrace(r.state.sealedThrough, turn));
  }

  lemma NextOnTrace(f: Frontier, r: Run)
    requires OnTrace(f, r) && NextAction(r.state).1.Some?
    ensures OnTrace(f, Run(NextAction(r.state).0, r.accepted, r.handed + [NextAction(r.state).1.value]))
  {
    HandOut(r.state);
    var (s, a) := NextAction(r.state);
    Associates(r.handed, [a.value], Drain(s));
  }

  lemma ResumeOnTrace(f: Frontier, r: Run, start: TurnStart)
    requires OnTrace(f, r) && Restart(r.state, start).Ok?
    ensures OnTrace(f, r.(state := Restart(r.state, start).value))
  {
  }

  lemma StepOnTrace(f: Frontier, r: Run, op: Op)
    requires OnTrace(f, r)
    ensures OnTrace(f, Step(r, op))
  {
    match op
    case Take(turn) =>
      if Accept(r.state, turn).Ok? {
        TakeOnTrace(f, r, turn);
      }
    case Next =>
      if NextAction(r.state).1.Some? {
        NextOnTrace(f, r);
      }
    case Resume(start) =>
      if Restart(r.state, start).Ok? {
        ResumeOnTrace(f, r, start);
      }
  }

  /** Lockstep, for one client: in every run the actions handed out are a prefix
      of a trace that depends on the accepted turns alone, and all of it once
      nothing more can be handed out. */
  lemma {:induction false} HandsOutTheTrace(start: TurnStart, ops: seq<Op>)
    ensures var r := Exec(Start(start), ops);
            && OnTrace(FrontierOf(start), r)
            && r.handed <= Canonical(FrontierOf(start), r.accepted)
            && (NextAction(r.state).1.None? ==> r.handed == Canonical(FrontierOf(start), r.accepted))
    decreases |ops|
  {
    if ops != [] {
      HandsOutTheTrace(start, ops[..|ops| - 1]);
      StepOnTrace(FrontierOf(start), Exec(Start(start), ops[..|ops| - 1]), ops[|ops| - 1]);
    }
    HandOut(Exec(Start(start), ops).state);
  }

  /** Lockstep, for two: clients of which one has accepted the other's turns and
      perhaps more never do different things, only more or less of them. */
  lemma TwoClientsAgree(start: TurnStart, ops1: seq<Op>, ops2: seq<Op>)
    requires Exec(Start(start), ops1).accepted <= Exec(Start(start), ops2).accepted
    ensures var h1, h2 := Exec(Start(start), ops1).handed, Exec(Start(start), ops2).handed;
            h1 <= h2 || h2 <= h1
  {
    HandsOutTheTrace(start, ops1);
    HandsOutTheTrace(start, ops2);
    var r1, r2 := Exec(Start(start), ops1), Exec(Start(start), ops2);
    var f := FrontierOf(start);
    LongerTrace(f, r1.accepted, r2.accepted);
    PrefixesCompare(r1.handed, r2.handed, Canonical(f, r2.accepted));
  }

  lemma PrefixesCompare<T>(a: seq<T>, b: seq<T>, c: seq<T>)
    requires a <= c && b <= c
    ensures a <= b || b <= a
  {
    if |a| <= |b| {
      assert a == c[..|a|] && b == c[..|b|] && b[..|a|] == c[..|a|];
    } else {
      assert b == c[..|b|] && a == c[..|a|] && a[..|b|] == c[..|b|];
    }
  }

  /** The speed is the one the last turn accepted asks for, and there is room for what is
      queued. */
  predicate Paced(r: Run) {
    && r.state.speed == (if r.accepted == [] then NORMAL_SPEED else r.accepted[|r.accepted| - 1].speed)
    && r.state.queuedBytes <= MAX_QUEUED_BYTES
  }

  lemma StepPaced(r: Run, op: Op)
    requires Paced(r)
    ensures Paced(Step(r, op))
  {
  }

  lemma {:induction false} AlwaysPaced(start: TurnStart, ops: seq<Op>)
    ensures Paced(Exec(Start(start), ops))
    decreases |ops|
  {
    if ops != [] {
      AlwaysPaced(start, ops[..|ops| - 1]);
      StepPaced(Exec(Start(start), ops[..|ops| - 1]), ops[|ops| - 1]);
    }
  }

  /** Whatever turns come, the speed is the one the last accepted asks for, and the events
      queued carry no more bytes than a follower may hold. */
  lemma SpeedAndRoom(start: TurnStart, ops: seq<Op>)
    ensures var r := Exec(Start(start), ops);
            && r.state.speed == (if r.accepted == [] then NORMAL_SPEED else r.accepted[|r.accepted| - 1].speed)
            && |Payloads(r.state.queue)| + EVENT_OVERHEAD * |r.state.queue| <= MAX_QUEUED_BYTES
  {
    AlwaysPaced(start, ops);
    HandsOutTheTrace(start, ops);
    BytesAreCarried(Exec(Start(start), ops).state.queue);
  }

  ghost predicate InARow(events: seq<Event>, first: nat) {
    forall i :: 0 <= i < |events| ==> events[i].seq_ == first + i
  }

  /** No event is lost, repeated or late: those applied, then those queued, are
      exactly the ones accepted, numbered in a row; every event is applied after
      the step before its own has run and before its own runs. */
  lemma NoEventStranded(start: TurnStart, ops: seq<Op>)
    ensures var r := Exec(Start(start), ops);
            && Applied(r.handed) + r.state.queue == AllEvents(r.accepted)
            && GateOrder(r.handed, start.sealedThrough + 1)
            && NextAfter(r.handed, start.sealedThrough + 1) == r.state.executed + 1
            && InARow(AllEvents(r.accepted), start.nextEvent)
  {
    NoneStranded(start, Exec(Start(start), ops)) by {
      HandsOutTheTrace(start, ops);
    }
    ExecutedIsNext(start, ops);
  }

  lemma NoneStranded(start: TurnStart, r: Run)
    requires OnTrace(FrontierOf(start), r)
    ensures Applied(r.handed) + r.state.queue == AllEvents(r.accepted)
    ensures GateOrder(r.handed, start.sealedThrough + 1) && InARow(AllEvents(r.accepted), start.nextEvent)
  {
    var f := FrontierOf(start);
    HandedInOrder(f, r.accepted, r.handed, r.state);
    NumberedInARow(f, r.accepted);
  }

  lemma HandedInOrder(f: Frontier, turns: seq<Turn>, handed: seq<Action>, s: State)
    requires Valid(s) && Log(f, turns) && Canonical(f, turns) == handed + Drain(s)
    ensures Applied(handed) + s.queue == AllEvents(turns)
    ensures GateOrder(handed, f.sealed + 1)
  {
    var rest := Drain(s);
    CanonicalKeepsOrder(f, turns);
    AppliedAppend(handed, rest);
    OwedEvents(s.executed, s.sealedThrough, s.queue);
    GateOrderAppend(handed, rest, f.sealed + 1);
  }

  lemma {:induction false} ExecutedIsNext(start: TurnStart, ops: seq<Op>)
    ensures var r := Exec(Start(start), ops);
            NextAfter(r.handed, start.sealedThrough + 1) == r.state.executed + 1
    decreases |ops|
  {
    if ops != [] {
      ExecutedIsNext(start, ops[..|ops| - 1]);
      var r := Exec(Start(start), ops[..|ops| - 1]);
      if ops[|ops| - 1].Next? && NextAction(r.state).1.Some? {
        SnocNext(r.handed, NextAction(r.state).1.value, start.sealedThrough + 1);
      }
    }
  }

  lemma {:induction false} SnocNext(trace: seq<Action>, a: Action, next: nat)
    ensures NextAfter(trace + [a], next) == NextAfter(trace, next) + if a.Execute? then 1 else 0
  {
    if trace == [] {
      assert trace + [a] == [a] && [a][1..] == [];
    } else {
      assert (trace + [a])[0] == trace[0] && (trace + [a])[1..] == trace[1..] + [a];
      SnocNext(trace[1..], a, if trace[0].Execute? then next + 1 else next);
    }
  }

  lemma {:induction false} NumberedInARow(f: Frontier, turns: seq<Turn>)
    requires Log(f, turns)
    ensures InARow(AllEvents(turns), f.nextEvent)
    decreases |turns|
  {
    if turns != [] {
      NumberedInARow(After(f, turns[0]), turns[1..]);
    }
  }

  // ---- Resuming ------------------------------------------------------------------

  /** A stream continues a follower exactly when it starts where the accepted
      turns end, and all it changes is the history's name. The point to resume
      from is the turn before the next one the follower would accept. */
  lemma RestartsExactlyAtTip(start: TurnStart, ops: seq<Op>, again: TurnStart)
    ensures var r := Exec(Start(start), ops);
            && (Restart(r.state, again).Ok? <==> FrontierOf(again) == AfterAll(FrontierOf(start), r.accepted))
            && (Restart(r.state, again).Ok? ==> Restart(r.state, again).value == r.state.(history := again.history))
            && (start.nextTurn > 0 ==> ResumePoint(r.state).afterTurn + 1 == start.nextTurn + |r.accepted|)
  {
    HandsOutTheTrace(start, ops);
    TipCounts(FrontierOf(start), Exec(Start(start), ops).accepted);
  }

  /** The history of the stream last taken up. */
  function LatestHistory(start: TurnStart, ops: seq<Op>): u64
    decreases |ops|
  {
    if ops == [] then start.history
    else
      var before, last := ops[..|ops| - 1], ops[|ops| - 1];
      if last.Resume? && Restart(Exec(Start(start), before).state, last.start).Ok? then last.start.history
      else LatestHistory(start, before)
  }

  /** A resume point names the history of the stream last taken up. */
  lemma {:induction false} ResumesItsHistory(start: TurnStart, ops: seq<Op>)
    ensures ResumePoint(Exec(Start(start), ops).state).history == LatestHistory(start, ops)
    decreases |ops|
  {
    if ops != [] {
      ResumesItsHistory(start, ops[..|ops| - 1]);
    }
  }

  lemma {:induction false} TipCounts(f: Frontier, turns: seq<Turn>)
    ensures AfterAll(f, turns).nextTurn == f.nextTurn + |turns|
    decreases |turns|
  {
    if turns != [] {
      TipCounts(After(f, turns[0]), turns[1..]);
    }
  }

  predicate Playing(op: Op) { !op.Resume? }

  function Uninterrupted(ops: seq<Op>): seq<Op>
    decreases |ops|
  {
    if ops == [] then []
    else Uninterrupted(ops[..|ops| - 1]) + if Playing(ops[|ops| - 1]) then [ops[|ops| - 1]] else []
  }

  lemma HistoryDecidesNothing(r: Run, u: Run, op: Op)
    requires r == u.(state := u.state.(history := r.state.history))
    ensures var after := Step(r, op);
            after == (if Playing(op) then Step(u, op) else u).(state :=
                       (if Playing(op) then Step(u, op) else u).state.(history := after.state.history))
  {
  }

  /** Reconnecting is invisible to the game: a run with any number of resumes
      hands out what the same run without them does. */
  lemma {:induction false} ResumingIsInvisible(start: TurnStart, ops: seq<Op>)
    ensures var r, u := Exec(Start(start), ops), Exec(Start(start), Uninterrupted(ops));
            r == u.(state := u.state.(history := r.state.history))
    decreases |ops|
  {
    if ops != [] {
      var before, last := ops[..|ops| - 1], ops[|ops| - 1];
      ResumingIsInvisible(start, before);
      HistoryDecidesNothing(Exec(Start(start), before), Exec(Start(start), Uninterrupted(before)), last);
      if Playing(last) {
        assert Uninterrupted(ops)[..|Uninterrupted(before)|] == Uninterrupted(before);
        assert Uninterrupted(ops)[|Uninterrupted(before)|] == last;
      } else {
        assert Uninterrupted(ops) == Uninterrupted(before);
      }
    }
  }

  // ---- Joining from a save -------------------------------------------------------

  function Fold<W>(f: (W, Action) -> W, w: W, trace: seq<Action>): W
    decreases |trace|
  {
    if trace == [] then w else f(Fold(f, w, trace[..|trace| - 1]), trace[|trace| - 1])
  }

  lemma {:induction false} FoldAppend<W>(f: (W, Action) -> W, w: W, a: seq<Action>, b: seq<Action>)
    ensures Fold(f, w, a + b) == Fold(f, Fold(f, w, a), b)
    decreases |b|
  {
    if b == [] {
      assert a + b == a;
    } else {
      var n := |b| - 1;
      assert (a + b)[..|a + b| - 1] == a + b[..n] && (a + b)[|a + b| - 1] == b[n];
      FoldAppend(f, w, a, b[..n]);
    }
  }

  /** What the whole protocol is for. One game plays the room's turns from the
      start; another loads the save the first would have made after the turns
      `a`, and follows the stream from there. Whatever their runs, as soon as
      the second has caught up with the first's place in the trace, the two hold
      the same world. `f` is the game, as a function of its world. */
  lemma JoinerHoldsTheSameWorld<W>(start: TurnStart, ops: seq<Op>, a: seq<Turn>, save: TurnStart, ops2: seq<Op>,
                                   f: (W, Action) -> W, first: W, saved: W)
    requires FrontierOf(save) == AfterAll(FrontierOf(start), a)
    requires saved == Fold(f, first, Canonical(FrontierOf(start), a))
    requires Exec(Start(start), ops).accepted <= a + Exec(Start(save), ops2).accepted
             || a + Exec(Start(save), ops2).accepted <= Exec(Start(start), ops).accepted
    requires |Exec(Start(start), ops).handed| == |Canonical(FrontierOf(start), a)| + |Exec(Start(save), ops2).handed|
    ensures Fold(f, first, Exec(Start(start), ops).handed) == Fold(f, saved, Exec(Start(save), ops2).handed)
  {
    var r, q := Exec(Start(start), ops), Exec(Start(save), ops2);
    var at := FrontierOf(start);
    var before := Canonical(at, a);
    HandsOutTheTrace(start, ops);
    HandsOutTheTrace(save, ops2);
    CutAtTurn(at, a, q.accepted);
    assert Canonical(at, a + q.accepted)[|before|..] == Canonical(FrontierOf(save), q.accepted);
    var mine, theirs := r.accepted, a + q.accepted;
    var longer := if mine <= theirs then theirs else mine;
    LongerTrace(at, mine, longer);
    LongerTrace(at, theirs, longer);
    SamePlace(r.handed, Canonical(at, mine), before, q.handed, Canonical(at, theirs), Canonical(at, longer));
    FoldAppend(f, first, before, q.handed);
  }

  lemma SamePlace<T>(a: seq<T>, ta: seq<T>, before: seq<T>, b: seq<T>, tb: seq<T>, whole: seq<T>)
    requires a <= ta <= whole && tb <= whole
    requires before <= tb && b <= tb[|before|..]
    requires |a| == |before| + |b|
    ensures a == before + b
  {
    assert tb == before + tb[|before|..];
    assert before + b <= tb;
    assert a == whole[..|a|] && before + b == whole[..|a|];
  }

  lemma LongerTrace(f: Frontier, a: seq<Turn>, b: seq<Turn>)
    requires a <= b
    ensures Canonical(f, a) <= Canonical(f, b)
  {
    assert b == a + b[|a|..];
    CutAtTurn(f, a, b[|a|..]);
  }
}
