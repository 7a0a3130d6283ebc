/** A turn follower as functions on values, and what every one of its calls keeps
    (crates/tpf3mp-agent/src/follower.rs). */
module FollowerSpec {
  import opened Protocol
  import opened Trace

  const MAX_QUEUED_BYTES: nat := 0x1000_0000
  const EVENT_OVERHEAD: nat := 64
  const NORMAL_SPEED: nat := 100

  datatype FollowError =
    | TurnGap(expected: nat, got: nat)
    | EventGap(expected: nat, got: nat)
    | EventStep(eventSeq: nat, step: nat, expected: nat)
    | FrontierRegressed(from: nat, to: nat)
    | RestartMismatch(expected: nat, got: nat)
    | RestartFrontier(expected: nat, got: nat)
    | Overflow
    | Backlog

  datatype Resume = Resume(afterTurn: nat, history: u64)

  function EventSize(e: Event): nat { EVENT_OVERHEAD + PayloadLen(e) }

  function Bytes(events: seq<Event>): nat {
    if events == [] then 0 else EventSize(events[0]) + Bytes(events[1..])
  }

  /** The payload an event carries. */
  function Payload(e: Event): seq<Byte> {
    match e.body
    case Command(_, payload) => payload
    case Notice(_, _) => []
  }

  function Payloads(events: seq<Event>): seq<Byte> {
    if events == [] then [] else Payload(events[0]) + Payloads(events[1..])
  }

  /** The bytes counted are those the events carry, and an allowance for each. */
  lemma {:induction false} BytesAreCarried(events: seq<Event>)
    ensures Bytes(events) == |Payloads(events)| + EVENT_OVERHEAD * |events|
  {
    if events != [] {
      BytesAreCarried(events[1..]);
    }
  }

  lemma {:induction false} BytesAppend(a: seq<Event>, b: seq<Event>)
    ensures Bytes(a + b) == Bytes(a) + Bytes(b)
  {
    if a == [] {
      assert a + b == b;
    } else {
      assert (a + b)[0] == a[0] && (a + b)[1..] == a[1..] + b;
      BytesAppend(a[1..], b);
    }
  }

  // ---- What a follower is, as a value ----------------------------------------

  datatype State = State(nextTurn: u64, nextEvent: u64, sealedThrough: u64, speed: nat,
                         executed: nat, queue: seq<Event>, queuedBytes: nat, history: u64)

  /** Where the turns accepted so far end. */
  function Tip(s: State): Frontier { Frontier(s.nextTurn, s.nextEvent, s.sealedThrough) }

  /** The queue is in step order, and every event in it is for a step not yet
      run, the last of them for the step after the frontier at most. */
  ghost predicate InStepOrder(executed: nat, sealed: nat, queue: seq<Event>) {
    && executed <= sealed
    && (forall e <- queue :: executed + 1 <= e.step <= sealed + 1)
    && (forall i, j :: 0 <= i < j < |queue| ==> queue[i].step <= queue[j].step)
  }

  ghost predicate Valid(s: State) {
    InStepOrder(s.executed, s.sealedThrough, s.queue) && s.queuedBytes == Bytes(s.queue)
  }

  function New(start: TurnStart): (s: State)
    ensures Valid(s) && Tip(s) == FrontierOf(start)
  {
    State(start.nextTurn, start.nextEvent, start.sealedThrough, NORMAL_SPEED,
          start.sealedThrough, [], 0, start.history)
  }

  function Restart(s: State, start: TurnStart): Result<State, FollowError> {
    if start.nextTurn != s.nextTurn then Err(RestartMismatch(s.nextTurn, start.nextTurn))
    else if start.nextEvent != s.nextEvent then Err(EventGap(s.nextEvent, start.nextEvent))
    else if start.sealedThrough != s.sealedThrough then
      Err(RestartFrontier(s.sealedThrough, start.sealedThrough))
    else Ok(s.(history := start.history))
  }

  function ResumePoint(s: State): Resume {
    Resume(if s.nextTurn == 0 then 0 else s.nextTurn - 1, s.history)
  }

  /** Whether the `i`th event is the one due: numbered in a row from `first`, for
      step `step`, its number not the last one there is. */
  predicate Due(events: seq<Event>, i: int, first: nat, step: nat)
    requires 0 <= i < |events|
  {
    events[i].seq_ == first + i && events[i].step == step && first + i < U64_MAX
  }

  /** The first event from `i` on that is not due. */
  function FirstBreak(events: seq<Event>, i: nat, first: nat, step: nat): (k: nat)
    requires i <= |events|
    ensures i <= k <= |events|
    ensures forall j :: i <= j < k ==> Due(events, j, first, step)
    ensures k < |events| ==> !Due(events, k, first, step)
    decreases |events| - i
  {
    if i == |events| || !Due(events, i, first, step) then i else FirstBreak(events, i + 1, first, step)
  }

  /** What is wrong with an event that arrives where number `expected` is due. */
  function Complaint(e: Event, expected: nat, step: nat): FollowError {
    if e.seq_ != expected then EventGap(expected, e.seq_)
    else if e.step != step then EventStep(e.seq_, e.step, step)
    else Overflow
  }

  /** Takes in a turn, or says why not: the first thing wrong with it. */
  function Accept(s: State, t: Turn): Result<State, FollowError> {
    if t.number != s.nextTurn then Err(TurnGap(s.nextTurn, t.number))
    else if t.sealedThrough < s.sealedThrough then Err(FrontierRegressed(s.sealedThrough, t.sealedThrough))
    else if s.nextTurn == U64_MAX || s.sealedThrough == U64_MAX then Err(Overflow)
    else
      var k := FirstBreak(t.events, 0, s.nextEvent, s.sealedThrough + 1);
      if k < |t.events| then Err(Complaint(t.events[k], s.nextEvent + k, s.sealedThrough + 1))
      else if s.queuedBytes + Bytes(t.events) > MAX_QUEUED_BYTES then Err(Backlog)
      else
        assert k > 0 ==> Due(t.events, k - 1, s.nextEvent, s.sealedThrough + 1);
        Ok(s.(nextTurn := s.nextTurn + 1, nextEvent := s.nextEvent + |t.events|,
              sealedThrough := t.sealedThrough, speed := t.speed,
              queue := s.queue + t.events, queuedBytes := s.queuedBytes + Bytes(t.events)))
  }

  /** Counters and queue leave room for `t`. */
  ghost predicate HasRoom(s: State, t: Turn) {
    && s.nextTurn < U64_MAX && s.sealedThrough < U64_MAX
    && s.nextEvent + |t.events| <= U64_MAX
    && s.queuedBytes + Bytes(t.events) <= MAX_QUEUED_BYTES
  }

  /** No event breaks the row exactly when they continue the log and the numbers
      last. */
  lemma NoBreak(events: seq<Event>, first: u64, step: nat)
    ensures FirstBreak(events, 0, first, step) == |events| <==>
              first + |events| <= U64_MAX
              && forall i :: 0 <= i < |events| ==> events[i].seq_ == first + i && events[i].step == step
  {
    var k := FirstBreak(events, 0, first, step);
    if k == |events| {
      assert k > 0 ==> Due(events, k - 1, first, step);
      forall i | 0 <= i < |events| ensures events[i].seq_ == first + i && events[i].step == step {
        assert Due(events, i, first, step);
      }
    }
  }

  /** A turn is taken in exactly when it continues the log and there is room. */
  lemma AcceptsExactlyTheLog(s: State, t: Turn)
    ensures Accept(s, t).Ok? <==> Fits(Tip(s), t) && HasRoom(s, t)
    ensures Accept(s, t).Ok? ==> Tip(Accept(s, t).value) == After(Tip(s), t)
  {
    NoBreak(t.events, s.nextEvent, s.sealedThrough + 1);
  }

  /** Why a turn is refused is true of it: what is named is the first thing wrong. */
  lemma RefusedForWhatIsNamed(s: State, t: Turn)
    requires Accept(s, t).Err?
    ensures var first, step := s.nextEvent, s.sealedThrough + 1;
            match Accept(s, t).error
            case TurnGap(expected, got) => expected == Tip(s).nextTurn != got == t.number
            case FrontierRegressed(from, to) => from == Tip(s).sealed > to == t.sealedThrough && t.number == s.nextTurn
            case EventGap(expected, got) =>
              exists i :: 0 <= i < |t.events| && expected == first + i != got == t.events[i].seq_
                          && forall j :: 0 <= j < i ==> Due(t.events, j, first, step)
            case EventStep(eventSeq, at, expected) =>
              exists i :: 0 <= i < |t.events| && eventSeq == t.events[i].seq_ == first + i
                          && at == t.events[i].step != expected == step
                          && forall j :: 0 <= j < i ==> Due(t.events, j, first, step)
            case Overflow => !(s.nextTurn < U64_MAX && s.sealedThrough < U64_MAX && s.nextEvent + |t.events| <= U64_MAX)
            case Backlog =>
              Fits(Tip(s), t) && s.queuedBytes + |Payloads(t.events)| + EVENT_OVERHEAD * |t.events| > MAX_QUEUED_BYTES
            case _ => false
  {
    NoBreak(t.events, s.nextEvent, s.sealedThrough + 1);
    BytesAreCarried(t.events);
    var k := FirstBreak(t.events, 0, s.nextEvent, s.sealedThrough + 1);
    if k < |t.events| {
      assert !Due(t.events, k, s.nextEvent, s.sealedThrough + 1);
    }
  }

  /** And why a stream does not continue a follower's. */
  lemma NotContinuedForWhatIsNamed(s: State, start: TurnStart)
    requires Restart(s, start).Err?
    ensures match Restart(s, start).error
            case RestartMismatch(expected, got) => expected == s.nextTurn != got == start.nextTurn
            case EventGap(expected, got) => expected == s.nextEvent != got == start.nextEvent && start.nextTurn == s.nextTurn
            case RestartFrontier(expected, got) => expected == s.sealedThrough != got == start.sealedThrough
            case _ => false
  {
  }

  lemma AcceptKeepsValid(s: State, t: Turn)
    requires Valid(s) && Accept(s, t).Ok?
    ensures Valid(Accept(s, t).value)
  {
    AcceptsExactlyTheLog(s, t);
    BytesAppend(s.queue, t.events);
  }

  /** Applies the front of the queue, or else runs a sealed step. */
  function NextAction(s: State): (State, Option<Action>) {
    var step := s.executed + 1;
    if |s.queue| > 0 && s.queue[0].step == step then
      var left := s.queuedBytes - EventSize(s.queue[0]);
      (s.(queue := s.queue[1..], queuedBytes := Max(left, 0)), Some(Action.Apply(s.queue[0])))
    else if step <= s.sealedThrough then (s.(executed := step), Some(Execute(step)))
    else (s, None)
  }

  function NextStep(s: State): Option<nat> {
    var step := s.executed + 1;
    if !(|s.queue| > 0 && s.queue[0].step == step) && step <= s.sealedThrough then Some(step) else None
  }

  /** A step is due next exactly when executing it is the next action. */
  lemma NextStepForetells(s: State)
    ensures match NextStep(s)
            case Some(step) => NextAction(s) == (s.(executed := step), Some(Execute(step)))
            case None => NextAction(s).1.None? || NextAction(s).1.value.Apply?
  {
  }

  // ---- What a follower still owes the game -------------------------------------

  /** Everything the follower would hand out if no further turn came. */
  function Owed(executed: nat, sealed: nat, queue: seq<Event>): seq<Action>
    decreases |queue| + (if executed < sealed then sealed - executed else 0)
  {
    if |queue| > 0 && queue[0].step == executed + 1 then
      [Action.Apply(queue[0])] + Owed(executed, sealed, queue[1..])
    else if executed < sealed then [Execute(executed + 1)] + Owed(executed + 1, sealed, queue)
    else []
  }

  function Drain(s: State): seq<Action> { Owed(s.executed, s.sealedThrough, s.queue) }

  /** The queue in step order behind its front, and past a step nothing waits for. */
  lemma StillInOrder(executed: nat, sealed: nat, queue: seq<Event>)
    requires InStepOrder(executed, sealed, queue)
    ensures queue != [] ==> InStepOrder(executed, sealed, queue[1..])
    ensures executed < sealed && (queue == [] || queue[0].step != executed + 1) ==> InStepOrder(executed + 1, sealed, queue)
    ensures executed == sealed && queue != [] ==> queue[0].step == executed + 1
  {
    if queue != [] {
      assert queue[0] in queue;
      assert forall e <- queue[1..] :: e in queue;
      forall e <- queue ensures queue[0].step <= e.step {
        var i :| 0 <= i < |queue| && queue[i] == e;
      }
    }
  }

  /** Handing out an action pays off the first of what is owed, keeps the
      invariant, and stops only with nothing queued and every sealed step run. */
  lemma HandOut(s: State)
    requires Valid(s)
    ensures var (s', a) := NextAction(s);
            Valid(s') && Tip(s') == Tip(s) &&
            match a
            case Some(action) => Drain(s) == [action] + Drain(s')
            case None => s' == s && Drain(s) == [] && s.queue == [] && s.executed == s.sealedThrough
  {
    StillInOrder(s.executed, s.sealedThrough, s.queue);
  }

  /** A step is handed out only once it is sealed and nothing for it waits; no
      turn accepted later brings an event for it either. */
  lemma ExecuteClosesItsStep(s: State, t: Turn)
    requires Valid(s) && NextAction(s).1.Some? && NextAction(s).1.value.Execute?
    ensures var (s', a) := NextAction(s);
            && a.value.step <= s.sealedThrough
            && (forall e <- s'.queue :: a.value.step < e.step)
            && (Accept(s', t).Ok? ==> forall e <- t.events :: a.value.step < e.step)
  {
    var (s', a) := NextAction(s);
    StillInOrder(s.executed, s.sealedThrough, s.queue);
    HandOut(s);
    AcceptsExactlyTheLog(s', t);
  }

  lemma {:induction false} OwedFlat(executed: nat, sealed: nat, queue: seq<Event>)
    requires executed <= sealed && forall e <- queue :: e.step == executed + 1
    ensures Owed(executed, sealed, queue) == Applies(queue) + Steps(executed, sealed)
    decreases |queue| + sealed - executed
  {
    if queue != [] {
      OwedFlat(executed, sealed, queue[1..]);
      assert Applies(queue) == [Action.Apply(queue[0])] + Applies(queue[1..]);
    } else if executed < sealed {
      OwedFlat(executed + 1, sealed, []);
      assert Steps(executed, sealed) == [Execute(executed + 1)] + Steps(executed + 1, sealed);
    }
  }

  lemma OwedEvent(executed: nat, sealed: nat, queue: seq<Event>, more: seq<Event>)
    requires queue != [] && queue[0].step == executed + 1
    ensures Owed(executed, sealed, queue + more) == [Action.Apply(queue[0])] + Owed(executed, sealed, queue[1..] + more)
  {
    assert (queue + more)[0] == queue[0] && (queue + more)[1..] == queue[1..] + more;
  }

  lemma OwedStep(executed: nat, sealed: nat, queue: seq<Event>)
    requires executed < sealed && (queue == [] || queue[0].step != executed + 1)
    ensures Owed(executed, sealed, queue) == [Execute(executed + 1)] + Owed(executed + 1, sealed, queue)
  {
  }

  /** New events for the step after the frontier queue up behind all that is owed. */
  lemma {:induction false} OwedGrows(executed: nat, sealed: nat, queue: seq<Event>, more: seq<Event>, frontier: nat)
    requires InStepOrder(executed, sealed, queue)
    requires sealed <= frontier && forall e <- more :: e.step == sealed + 1
    ensures Owed(executed, frontier, queue + more) == Owed(executed, sealed, queue) + (Applies(more) + Steps(sealed, frontier))
    decreases |queue| + sealed - executed
  {
    StillInOrder(executed, sealed, queue);
    var turn := Applies(more) + Steps(sealed, frontier);
    if queue != [] && queue[0].step == executed + 1 {
      OwedGrows(executed, sealed, queue[1..], more, frontier);
      OwedEvent(executed, frontier, queue, more);
      Associates([Action.Apply(queue[0])], Owed(executed, sealed, queue[1..]), turn);
    } else if executed < sealed {
      OwedGrows(executed + 1, sealed, queue, more, frontier);
      OwedStep(executed, frontier, queue + more);
      Associates([Execute(executed + 1)], Owed(executed + 1, sealed, queue), turn);
    } else {
      assert queue + more == more;
      OwedFlat(executed, frontier, more);
    }
  }

  /** Accepting a turn adds what the turn adds to the canonical trace. */
  lemma AcceptOwesTurn(s: State, t: Turn)
    requires Valid(s) && Accept(s, t).Ok?
    ensures Valid(Accept(s, t).value) && Tip(Accept(s, t).value) == After(Tip(s), t)
    ensures Drain(Accept(s, t).value) == Drain(s) + TurnTrace(s.sealedThrough, t)
  {
    AcceptKeepsValid(s, t);
    AcceptsExactlyTheLog(s, t);
    OwedGrows(s.executed, s.sealedThrough, s.queue, t.events, t.sealedThrough);
  }

  /** Of what is owed, the events are the queue. */
  lemma {:induction false} OwedEvents(executed: nat, sealed: nat, queue: seq<Event>)
    requires InStepOrder(executed, sealed, queue)
    ensures Applied(Owed(executed, sealed, queue)) == queue
    decreases |queue| + sealed - executed
  {
    StillInOrder(executed, sealed, queue);
    if queue != [] && queue[0].step == executed + 1 {
      OwedEvents(executed, sealed, queue[1..]);
      assert Owed(executed, sealed, queue)[1..] == Owed(executed, sealed, queue[1..]);
    } else if executed < sealed {
      OwedEvents(executed + 1, sealed, queue);
      assert Owed(executed, sealed, queue)[1..] == Owed(executed + 1, sealed, queue);
    }
  }
}
