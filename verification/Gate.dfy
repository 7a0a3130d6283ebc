/** What stands before every step of a game (crates/tpf3mp-bridge/src/gate.rs), on
    values. */
module Gate {
  import opened Protocol
  import opened Trace
  import opened HookLink

  /** `loading`: a load was ordered and has not finished. */
  datatype Gate = Gate(nextStep: nat, released: nat, loading: bool, ended: bool)

  datatype GateError =
    | EventStep(expected: nat, got: nat)
    | EventAfterRelease(step: nat)
    | ReleaseBackwards(from: nat, to: nat)
    | Unexpected
    | WhileLoading

  function NewGate(nextStep: nat): Gate { Gate(nextStep, if nextStep == 0 then 0 else nextStep - 1, false, false) }

  predicate MayRun(g: Gate) { !g.ended && !g.loading && g.nextStep <= g.released }

  predicate PassesLoading(m: ToHook) {
    m.Preview? || m.Lobby? || (m.Other? && (m.kind == END || m.kind == AI_ASK))
  }

  /** A message at the gate: the gate after it, and the event it lets through. A load
      in progress refuses all but the end and what waits for no world. */
  function OnMessage(g: Gate, m: ToHook): Result<(Gate, seq<Action>), GateError> {
    if g.loading && !PassesLoading(m) then Err(WhileLoading)
    else
      match m
      case Apply(event) =>
        if event.step != g.nextStep then Err(EventStep(g.nextStep, event.step))
        else if g.nextStep <= g.released then Err(EventAfterRelease(event.step))
        else Ok((g, [Action.Apply(event)]))
      case Release(through) =>
        if through < g.released then Err(ReleaseBackwards(g.released, through))
        else Ok((g.(released := through), []))
      case Load(_, _) => Ok((g.(loading := true), []))
      case Hello => Err(Unexpected)
      case Begin(_) => Err(Unexpected)
      case Other(kind, _) => Ok((g.(ended := g.ended || kind == END), []))
      case _ => Ok((g, []))
  }

  /** The world ordered by the last load is there; nothing is released for it yet. */
  function LoadDone(g: Gate, nextStep: nat): Gate {
    g.(nextStep := nextStep, released := if nextStep == 0 then 0 else nextStep - 1, loading := false)
  }

  /** A message is refused exactly when it would put the game out of its order: an event
      that is not for the step waited at, or whose step may run already; a release taken
      back; a greeting or a beginning now; or anything but what no world needs while one
      loads. */
  lemma RefusesExactlyWhen(g: Gate, m: ToHook)
    ensures OnMessage(g, m).Err? <==>
              || (g.loading && !PassesLoading(m)) || m.Hello? || m.Begin?
              || (m.Apply? && (m.event.step != g.nextStep || g.nextStep <= g.released))
              || (m.Release? && m.through < g.released)
    ensures OnMessage(g, m).Ok? ==>
              var h := OnMessage(g, m).value.0;
              h.nextStep == g.nextStep && g.released <= h.released && (g.ended ==> h.ended) && (g.loading ==> h.loading)
  {
  }
}
