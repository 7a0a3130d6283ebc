/** The one order in which a game applies events and runs steps, computed from
    the turns alone (docs/PROTOCOL.md, "Turns: the ordered event log"). */
module Trace {
  import opened Protocol

  /** What the game does next: apply an event, or execute a step. */
  datatype Action = Apply(event: Event) | Execute(step: nat)

  /** Where a turn log stands: the next turn and event it may name, and the last
      step it sealed. */
  datatype Frontier = Frontier(nextTurn: nat, nextEvent: nat, sealed: nat)

  function FrontierOf(start: TurnStart): Frontier {
    Frontier(start.nextTurn, start.nextEvent, start.sealedThrough)
  }

  /** Whether `t` may follow a log that stands at `f`. */
  ghost predicate Fits(f: Frontier, t: Turn) {
    && t.number == f.nextTurn
    && f.sealed <= t.sealedThrough
    && forall i :: 0 <= i < |t.events| ==> t.events[i].seq_ == f.nextEvent + i && t.events[i].step == f.sealed + 1
  }

  function After(f: Frontier, t: Turn): Frontier {
    Frontier(f.nextTurn + 1, f.nextEvent + |t.events|, t.sealedThrough)
  }

  function AfterAll(f: Frontier, turns: seq<Turn>): Frontier
    decreases |turns|
  {
    if turns == [] then f else AfterAll(After(f, turns[0]), turns[1..])
  }

  /** A log: every turn fits where the ones before it left off. */
  ghost predicate Log(f: Frontier, turns: seq<Turn>)
    decreases |turns|
  {
    turns == [] || (Fits(f, turns[0]) && Log(After(f, turns[0]), turns[1..]))
  }

  function Applies(events: seq<Event>): (trace: seq<Action>)
    ensures |trace| == |events|
  {
    seq(|events|, i requires 0 <= i < |events| => Action.Apply(events[i]))
  }

  /** Executing the steps after `from`, up to and including `through`. */
  function Steps(from: nat, through: nat): (trace: seq<Action>)
    ensures |trace| == if from <= through then through - from else 0
  {
    if from < through then seq(through - from, i requires 0 <= i => Execute(from + 1 + i)) else []
  }

  /** What one turn adds: its events, then the steps it seals. */
  function TurnTrace(sealed: nat, t: Turn): seq<Action> {
    Applies(t.events) + Steps(sealed, t.sealedThrough)
  }

  function Canonical(f: Frontier, turns: seq<Turn>): seq<Action>
    decreases |turns|
  {
    if turns == [] then [] else TurnTrace(f.sealed, turns[0]) + Canonical(After(f, turns[0]), turns[1..])
  }

  /** The events of a log, in order. */
  function AllEvents(turns: seq<Turn>): seq<Event> {
    if turns == [] then [] else turns[0].events + AllEvents(turns[1..])
  }

  function EventsOf(a: Action): seq<Event> {
    match a
    case Apply(e) => [e]
    case Execute(_) => []
  }

  /** The events a trace applies, in order. */
  function Applied(trace: seq<Action>): seq<Event> {
    if trace == [] then [] else EventsOf(trace[0]) + Applied(trace[1..])
  }

  /** The order the hook's gate requires, as the protocol promises it: steps run
      one after the other from `next`, and an event applies after the step
      before its own and before its own. */
  ghost predicate GateOrder(trace: seq<Action>, next: nat) {
    trace == []
    || match trace[0]
       case Apply(e) => e.step == next && GateOrder(trace[1..], next)
       case Execute(s) => s == next && GateOrder(trace[1..], next + 1)
  }

  /** The step a trace that starts before `next` leaves to run next. */
  function NextAfter(trace: seq<Action>, next: nat): nat {
    if trace == [] then next
    else NextAfter(trace[1..], if trace[0].Execute? then next + 1 else next)
  }

  // ---- Cutting a log at a turn boundary -------------------------------------

  /** Cutting a log in two: the second half continues at the first's frontier,
      and the traces join up. This is why a game that loads the save taken at a
      turn boundary, and a client that resumes there, run what everyone runs. */
  lemma {:induction false} CutAtTurn(f: Frontier, a: seq<Turn>, b: seq<Turn>)
    ensures Log(f, a + b) <==> Log(f, a) && Log(AfterAll(f, a), b)
    ensures AfterAll(f, a + b) == AfterAll(AfterAll(f, a), b)
    ensures Canonical(f, a + b) == Canonical(f, a) + Canonical(AfterAll(f, a), b)
    ensures AllEvents(a + b) == AllEvents(a) + AllEvents(b)
    decreases |a|
  {
    if a == [] {
      assert a + b == b;
    } else {
      assert (a + b)[0] == a[0] && (a + b)[1..] == a[1..] + b;
      CutAtTurn(After(f, a[0]), a[1..], b);
    }
  }

  lemma OneMore(f: Frontier, turns: seq<Turn>, t: Turn)
    ensures Log(f, turns + [t]) <==> Log(f, turns) && Fits(AfterAll(f, turns), t)
    ensures AfterAll(f, turns + [t]) == After(AfterAll(f, turns), t)
    ensures Canonical(f, turns + [t]) == Canonical(f, turns) + TurnTrace(AfterAll(f, turns).sealed, t)
    ensures AllEvents(turns + [t]) == AllEvents(turns) + t.events
  {
    CutAtTurn(f, turns, [t]);
    var g := AfterAll(f, turns);
    assert [t][1..] == [];
    assert Canonical(g, [t]) == TurnTrace(g.sealed, t) + Canonical(After(g, t), []);
    assert AllEvents([t]) == t.events + AllEvents([]);
  }

  // ---- The canonical trace keeps the gate's order, and is the only one -------

  lemma {:induction false} AppliedAppend(a: seq<Action>, b: seq<Action>)
    ensures Applied(a + b) == Applied(a) + Applied(b)
  {
    if a == [] {
      assert a + b == b;
    } else {
      assert (a + b)[0] == a[0] && (a + b)[1..] == a[1..] + b;
      AppliedAppend(a[1..], b);
    }
  }

  lemma {:induction false} GateOrderAppend(a: seq<Action>, b: seq<Action>, next: nat)
    ensures GateOrder(a + b, next) <==> GateOrder(a, next) && GateOrder(b, NextAfter(a, next))
    ensures NextAfter(a + b, next) == NextAfter(b, NextAfter(a, next))
  {
    if a == [] {
      assert a + b == b;
    } else {
      assert (a + b)[0] == a[0] && (a + b)[1..] == a[1..] + b;
      GateOrderAppend(a[1..], b, if a[0].Execute? then next + 1 else next);
    }
  }

  lemma {:induction false} AppliesOrder(events: seq<Event>, next: nat)
    requires forall e <- events :: e.step == next
    ensures GateOrder(Applies(events), next) && NextAfter(Applies(events), next) == next
    ensures Applied(Applies(events)) == events
  {
    if events != [] {
      assert Applies(events)[1..] == Applies(events[1..]);
      AppliesOrder(events[1..], next);
    }
  }

  lemma {:induction false} StepsOrder(from: nat, through: nat)
    requires from <= through
    ensures GateOrder(Steps(from, through), from + 1) && NextAfter(Steps(from, through), from + 1) == through + 1
    ensures Applied(Steps(from, through)) == []
    decreases through - from
  {
    if from < through {
      assert Steps(from, through)[1..] == Steps(from + 1, through);
      StepsOrder(from + 1, through);
    }
  }

  /** `trace` keeps the order from `next`, leaves `end` to run, and applies these. */
  ghost predicate Plays(trace: seq<Action>, next: nat, end: nat, events: seq<Event>) {
    GateOrder(trace, next) && NextAfter(trace, next) == end && Applied(trace) == events
  }

  lemma Join(a: seq<Action>, b: seq<Action>, next: nat, mid: nat, end: nat, x: seq<Event>, y: seq<Event>)
    requires Plays(a, next, mid, x) && Plays(b, mid, end, y)
    ensures Plays(a + b, next, end, x + y)
  {
    GateOrderAppend(a, b, next);
    AppliedAppend(a, b);
  }

  lemma TurnKeepsOrder(f: Frontier, t: Turn)
    requires Fits(f, t)
    ensures Plays(TurnTrace(f.sealed, t), f.sealed + 1, t.sealedThrough + 1, t.events)
  {
    AppliesOrder(t.events, f.sealed + 1);
    StepsOrder(f.sealed, t.sealedThrough);
    Join(Applies(t.events), Steps(f.sealed, t.sealedThrough), f.sealed + 1, f.sealed + 1, t.sealedThrough + 1, t.events, []);
    assert t.events + [] == t.events;
  }

  /** The canonical trace of a log keeps the gate's order, applies exactly the
      log's events in their order, and runs every step the log sealed. */
  lemma {:induction false} CanonicalKeepsOrder(f: Frontier, turns: seq<Turn>)
    requires Log(f, turns)
    ensures Plays(Canonical(f, turns), f.sealed + 1, AfterAll(f, turns).sealed + 1, AllEvents(turns))
    decreases |turns|
  {
    if turns != [] {
      var t, rest := turns[0], turns[1..];
      var g := After(f, t);
      TurnKeepsOrder(f, t);
      CanonicalKeepsOrder(g, rest);
      Join(TurnTrace(f.sealed, t), Canonical(g, rest), f.sealed + 1, g.sealed + 1, AfterAll(g, rest).sealed + 1,
           t.events, AllEvents(rest));
    }
  }

  /** Nothing in a trace that keeps the order applies before `next`. */
  lemma {:induction false} NothingLate(trace: seq<Action>, next: nat)
    requires GateOrder(trace, next)
    ensures forall e <- Applied(trace) :: next <= e.step
  {
    if trace != [] {
      NothingLate(trace[1..], if trace[0].Execute? then next + 1 else next);
    }
  }

  /** The gate's order leaves no choice: two traces that keep it, apply the same
      events and run as many steps are the same trace. */
  lemma {:induction false} OrderIsUnique(a: seq<Action>, b: seq<Action>, next: nat)
    requires GateOrder(a, next) && GateOrder(b, next)
    requires Applied(a) == Applied(b)
    requires NextAfter(a, next) == NextAfter(b, next)
    ensures a == b
    decreases |a| + |b|
  {
    NextGrows(a, next);
    NextGrows(b, next);
    if a != [] && b != [] {
      if a[0].Apply? != b[0].Apply? {
        // One runs `next` before an event of step `next` the other applies.
        var early, late := if a[0].Apply? then a else b, if a[0].Apply? then b else a;
        assert Applied(early)[0] == early[0].event;
        assert Applied(late) == Applied(late[1..]);
        NothingLate(late[1..], next + 1);
        assert false;
      } else {
        if a[0].Apply? {
          assert Applied(a)[0] == a[0].event && Applied(b)[0] == b[0].event;
        }
        assert a[0] == b[0];
        assert Applied(a[1..]) == Applied(a)[|EventsOf(a[0])|..];
        assert Applied(b[1..]) == Applied(b)[|EventsOf(b[0])|..];
        OrderIsUnique(a[1..], b[1..], if a[0].Execute? then next + 1 else next);
      }
    }
  }

  lemma {:induction false} NextGrows(trace: seq<Action>, next: nat)
    requires GateOrder(trace, next)
    ensures next <= NextAfter(trace, next)
    ensures Applied(trace) == [] && NextAfter(trace, next) == next ==> trace == []
  {
    if trace != [] {
      NextGrows(trace[1..], if trace[0].Execute? then next + 1 else next);
    }
  }

  /** Hence the canonical trace is the only one the protocol allows for a log. */
  lemma CanonicalIsUnique(f: Frontier, turns: seq<Turn>, trace: seq<Action>)
    requires Log(f, turns)
    requires GateOrder(trace, f.sealed + 1)
    requires Applied(trace) == AllEvents(turns)
    requires NextAfter(trace, f.sealed + 1) == AfterAll(f, turns).sealed + 1
    ensures trace == Canonical(f, turns)
  {
    CanonicalKeepsOrder(f, turns);
    OrderIsUnique(trace, Canonical(f, turns), f.sealed + 1);
  }
}
