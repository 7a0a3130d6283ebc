/** Requests waiting for their responses, and the end of the task that reads these:
    tasks that share the map of pending requests and the reader's flag, one step of
    one of them at a time (crates/tpf3mp-agent/src/lib.rs). A request's number is its
    place among those made. */
module Requests {
  type Response = nat

  datatype Outcome = Response(response: Response) | Disconnected | Timeout | Cancelled

  /** `Leaving`: about to remove its entry. */
  datatype Phase = Claimed | Inserted | Checked | Waiting | Leaving(outcome: Outcome) | Over(outcome: Outcome)

  /** Its reply's channel: the sender is still about, sent, or was dropped. */
  datatype Reply = Open | Sent(response: Response) | Closed

  datatype Request = Request(phase: Phase, reply: Reply)

  /** `Handing`: it took a reply's sender out of the map and is about to send. */
  datatype Reader = Reading | Handing(id: nat, response: Response) | Flagged | Cleared

  /** `heard`: the responses the reader took, with the requests they are for. */
  datatype State = State(requests: seq<Request>, pending: set<nat>, flag: bool, reader: Reader,
                         heard: seq<(nat, Response)>)

  datatype Step =
    | Claim
    | Insert(id: nat)
    | Check(id: nat)
    | SendOut(id: nat, ok: bool)
    | Hear(id: nat)
    | TimeOut(id: nat)
    | Remove(id: nat)
    | Cancel(id: nat)
    | ReaderGets(id: nat, response: Response)
    | ReaderSends
    | ReaderStops
    | ReaderClears

  const START := State([], {}, false, Reading, [])

  predicate Is(s: State, id: nat, phase: Phase) { id < |s.requests| && s.requests[id].phase == phase }

  function Put(s: State, id: nat, phase: Phase): State
    requires id < |s.requests|
  {
    s.(requests := s.requests[id := s.requests[id].(phase := phase)])
  }

  /** Taking an entry out of the map drops its sender. */
  function Dropped(s: State, ids: set<nat>): seq<Request> {
    seq(|s.requests|, i requires 0 <= i < |s.requests| =>
      if i in ids && i in s.pending then s.requests[i].(reply := Closed) else s.requests[i])
  }

  /** A step that cannot be taken now changes nothing. */
  function Take(s: State, step: Step): State {
    match step
    case Claim => s.(requests := s.requests + [Request(Claimed, Open)])
    case Insert(id) => if Is(s, id, Claimed) then Put(s, id, Inserted).(pending := s.pending + {id}) else s
    case Check(id) =>
      if !Is(s, id, Inserted) then s else Put(s, id, if s.flag then Leaving(Disconnected) else Checked)
    case SendOut(id, ok) =>
      if !Is(s, id, Checked) then s else Put(s, id, if ok then Waiting else Leaving(Disconnected))
    case Hear(id) =>
      if !Is(s, id, Waiting) || s.requests[id].reply.Open? then s
      else Put(s, id, Over(if s.requests[id].reply.Sent? then Response(s.requests[id].reply.response) else Disconnected))
    case TimeOut(id) =>
      if Is(s, id, Waiting) && s.requests[id].reply.Open? then Put(s, id, Leaving(Timeout)) else s
    case Remove(id) =>
      if id < |s.requests| && s.requests[id].phase.Leaving? then
        Put(s.(requests := Dropped(s, {id}), pending := s.pending - {id}), id, Over(s.requests[id].phase.outcome))
      else s
    case Cancel(id) =>
      if Is(s, id, Checked) || Is(s, id, Waiting) then Put(s, id, Over(Cancelled)) else s
    case ReaderGets(id, response) =>
      if s.reader.Reading? && id in s.pending then
        s.(pending := s.pending - {id}, reader := Handing(id, response), heard := s.heard + [(id, response)])
      else s
    case ReaderSends =>
      if s.reader.Handing? && s.reader.id < |s.requests| then
        s.(requests := s.requests[s.reader.id := s.requests[s.reader.id].(reply := Sent(s.reader.response))],
           reader := Reading)
      else s
    case ReaderStops => if s.reader.Reading? then s.(flag := true, reader := Flagged) else s
    case ReaderClears =>
      if s.reader.Flagged? then s.(requests := Dropped(s, s.pending), pending := {}, reader := Cleared) else s
  }

  function Run(steps: seq<Step>): State {
    if steps == [] then START else Take(Run(steps[..|steps| - 1]), steps[|steps| - 1])
  }

  // ---- What every run keeps ----

  predicate HeldByReader(s: State, id: nat) { s.reader.Handing? && s.reader.id == id }

  /** An entry is of a request that put it there and whose sender it holds. */
  ghost predicate EntriesSound(s: State) {
    forall id <- s.pending ::
      && id < |s.requests| && s.requests[id].reply.Open? && !s.requests[id].phase.Claimed?
      && (s.requests[id].phase.Over? ==> s.requests[id].phase.outcome == Cancelled)
  }

  /** A sender is still about only where someone holds it. */
  ghost predicate SendersSound(s: State) {
    forall id :: 0 <= id < |s.requests| && s.requests[id].reply.Open? ==>
      s.requests[id].phase.Claimed? || id in s.pending || HeldByReader(s, id)
  }

  ghost predicate PhasesSound(s: State) {
    forall id :: 0 <= id < |s.requests| ==>
      && (s.requests[id].phase.Claimed? ==> s.requests[id].reply.Open? && id !in s.pending)
      && (s.requests[id].phase.Leaving? ==> s.requests[id].phase.outcome == Disconnected || s.requests[id].phase.outcome == Timeout)
  }

  /** Its entry will be removed by the request itself: it is about to find the flag
      set, or has. */
  predicate AboutToLeave(r: Request) { r.phase.Inserted? || r.phase == Leaving(Disconnected) }

  ghost predicate ClearedSound(s: State) {
    s.reader.Cleared? ==> forall id <- s.pending :: id < |s.requests| && AboutToLeave(s.requests[id])
  }

  ghost predicate ReaderSound(s: State) {
    && (s.flag <==> s.reader.Flagged? || s.reader.Cleared?)
    && (s.reader.Handing? ==>
          && s.reader.id < |s.requests| && s.requests[s.reader.id].reply.Open?
          && s.reader.id !in s.pending && !s.requests[s.reader.id].phase.Claimed?
          && (s.reader.id, s.reader.response) in s.heard)
  }

  /** Each request has at most one response, and ends with no other. */
  ghost predicate AnswersSound(s: State) {
    && (forall i, j :: 0 <= i < j < |s.heard| ==> s.heard[i].0 != s.heard[j].0)
    && (forall i :: 0 <= i < |s.heard| ==> s.heard[i].0 < |s.requests| && s.heard[i].0 !in s.pending)
    && (forall i :: 0 <= i < |s.heard| ==> !s.requests[s.heard[i].0].phase.Claimed?)
    && (forall id :: 0 <= id < |s.requests| && s.requests[id].reply.Sent? ==>
          (id, s.requests[id].reply.response) in s.heard)
    && (forall id :: 0 <= id < |s.requests| && s.requests[id].phase.Over? && s.requests[id].phase.outcome.Response? ==>
          s.requests[id].reply == Sent(s.requests[id].phase.outcome.response))
  }

  /** A response heard is being handed over or was sent, and a sender is dropped only with
      nothing heard for it. */
  ghost predicate HandedOver(s: State) {
    && (forall i :: 0 <= i < |s.heard| ==> Reached(s, s.heard[i].0, s.heard[i].1))
    && (forall id :: 0 <= id < |s.requests| && s.requests[id].reply.Closed? ==> Unheard(s, id))
  }

  predicate Reached(s: State, id: nat, r: Response) {
    s.reader == Handing(id, r) || (id < |s.requests| && s.requests[id].reply == Sent(r))
  }

  predicate Unheard(s: State, id: nat) { forall i :: 0 <= i < |s.heard| ==> s.heard[i].0 != id }

  ghost predicate Sound(s: State) {
    EntriesSound(s) && SendersSound(s) && PhasesSound(s) && ClearedSound(s) && ReaderSound(s) && AnswersSound(s)
  }

  lemma EntryKeeps(s: State, step: Step)
    requires Sound(s) && (step.Claim? || step.Insert? || step.Remove?)
    ensures Sound(Take(s, step))
  {
    match step {
      case Claim =>
      case Insert(id) => InsertKeeps(s, id);
      case Remove(id) => RemoveKeeps(s, id);
    }
  }

  lemma InsertKeeps(s: State, id: nat)
    requires Sound(s)
    ensures Sound(Take(s, Insert(id)))
  {
  }

  lemma RemoveKeeps(s: State, id: nat)
    requires Sound(s)
    ensures Sound(Take(s, Remove(id)))
  {
  }

  lemma SendingKeeps(s: State, step: Step)
    requires Sound(s) && (step.Check? || step.SendOut?)
    ensures Sound(Take(s, step))
  {
  }

  lemma EndingKeeps(s: State, step: Step)
    requires Sound(s) && (step.Hear? || step.TimeOut? || step.Cancel?)
    ensures Sound(Take(s, step))
  {
    match step {
      case Hear(id) => HearKeeps(s, id);
      case TimeOut(id) => TimeOutKeeps(s, id);
      case Cancel(id) => CancelKeeps(s, id);
    }
  }

  lemma HearKeeps(s: State, id: nat)
    requires Sound(s)
    ensures Sound(Take(s, Hear(id)))
  {
  }

  lemma TimeOutKeeps(s: State, id: nat)
    requires Sound(s)
    ensures Sound(Take(s, TimeOut(id)))
  {
  }

  lemma CancelKeeps(s: State, id: nat)
    requires Sound(s)
    ensures Sound(Take(s, Cancel(id)))
  {
  }

  lemma ReaderKeeps(s: State, step: Step)
    requires Sound(s) && (step.ReaderGets? || step.ReaderSends? || step.ReaderStops? || step.ReaderClears?)
    ensures Sound(Take(s, step))
  {
    match step {
      case ReaderGets(id, response) => GetKeeps(s, id, response);
      case ReaderSends => SendsKeeps(s);
      case ReaderStops =>
      case ReaderClears => ClearKeeps(s);
    }
  }

  lemma GetKeeps(s: State, id: nat, response: Response)
    requires Sound(s)
    ensures Sound(Take(s, ReaderGets(id, response)))
  {
  }

  lemma SendsKeeps(s: State)
    requires Sound(s)
    ensures Sound(Take(s, ReaderSends))
  {
  }

  lemma ClearKeeps(s: State)
    requires Sound(s)
    ensures Sound(Take(s, ReaderClears))
  {
  }

  lemma {:induction false} EveryRunSound(steps: seq<Step>)
    ensures Sound(Run(steps))
  {
    if steps != [] {
      var s, step := Run(steps[..|steps| - 1]), steps[|steps| - 1];
      EveryRunSound(steps[..|steps| - 1]);
      match step {
        case Hear(_) => EndingKeeps(s, step);
        case TimeOut(_) => EndingKeeps(s, step);
        case Cancel(_) => EndingKeeps(s, step);
        case Check(_) => SendingKeeps(s, step);
        case SendOut(_, _) => SendingKeeps(s, step);
        case ReaderGets(_, _) => ReaderKeeps(s, step);
        case ReaderSends => ReaderKeeps(s, step);
        case ReaderStops => ReaderKeeps(s, step);
        case ReaderClears => ReaderKeeps(s, step);
        case _ => EntryKeeps(s, step);
      }
    }
  }

  /** No request is stranded: once the reader is done, every request that waits has
      its response or a dropped sender, and an entry left in the map belongs to a
      request about to find the reader gone and remove it. */
  lemma NoneIsStranded(steps: seq<Step>)
    ensures var s := Run(steps);
            s.reader.Cleared? ==>
              && (forall id :: 0 <= id < |s.requests| && (s.requests[id].phase.Waiting? || s.requests[id].phase.Checked?) ==>
                    !s.requests[id].reply.Open?)
              && (forall id <- s.pending :: id < |s.requests| && AboutToLeave(s.requests[id]))
  {
    EveryRunSound(steps);
  }

  /** A request that ends with a response ends with the one heard for it, the only
      one. */
  lemma EachItsOwnResponse(steps: seq<Step>, id: nat, r: Response)
    ensures var s := Run(steps);
            Is(s, id, Over(Response(r))) ==>
              (id, r) in s.heard && forall q :: (id, q) in s.heard ==> q == r
  {
    EveryRunSound(steps);
  }

  // ---- Responses arrive ----

  lemma HandedKeeps(s: State, step: Step)
    requires Sound(s) && HandedOver(s)
    ensures HandedOver(Take(s, step))
  {
    match step {
      case ReaderGets(id, response) => GetHanded(s, id, response);
      case ReaderSends => SendHanded(s);
      case ReaderClears => ClearHanded(s);
      case Remove(id) => RemoveHanded(s, id);
      case _ => OthersHanded(s, step);
    }
  }

  lemma GetHanded(s: State, id: nat, response: Response)
    requires Sound(s) && HandedOver(s)
    ensures HandedOver(Take(s, ReaderGets(id, response)))
  {
  }

  lemma SendHanded(s: State)
    requires Sound(s) && HandedOver(s)
    ensures HandedOver(Take(s, ReaderSends))
  {
  }

  lemma ClearHanded(s: State)
    requires Sound(s) && HandedOver(s)
    ensures HandedOver(Take(s, ReaderClears))
  {
  }

  lemma RemoveHanded(s: State, id: nat)
    requires Sound(s) && HandedOver(s)
    ensures HandedOver(Take(s, Remove(id)))
  {
  }

  lemma OthersHanded(s: State, step: Step)
    requires Sound(s) && HandedOver(s)
    requires !step.ReaderGets? && !step.ReaderSends? && !step.ReaderClears? && !step.Remove?
    ensures HandedOver(Take(s, step))
  {
  }

  lemma {:induction false} EveryRunHands(steps: seq<Step>)
    ensures HandedOver(Run(steps))
  {
    if steps != [] {
      EveryRunHands(steps[..|steps| - 1]);
      EveryRunSound(steps[..|steps| - 1]);
      HandedKeeps(Run(steps[..|steps| - 1]), steps[|steps| - 1]);
    }
  }

  /** In every run, a request that waits and hears ends with its response exactly when one
      was heard for it and the reader is not still handing it over; it ends disconnected
      exactly when none was and the reader is done; otherwise it waits on. */
  lemma EndsByWhatWasHeard(steps: seq<Step>, id: nat)
    requires Is(Run(steps), id, Waiting)
    ensures var s, t := Run(steps), Take(Run(steps), Hear(id));
            && (forall r: Response :: Is(t, id, Over(Response(r))) <==> (id, r) in s.heard && !HeldByReader(s, id))
            && (Is(t, id, Over(Disconnected)) <==> Unheard(s, id) && id !in s.pending)
            && (!t.requests[id].phase.Over? <==> t == s)
            && (t == s <==> id in s.pending || HeldByReader(s, id))
  {
    EveryRunSound(steps);
    EveryRunHands(steps);
    var s := Run(steps);
    if s.requests[id].reply.Sent? {
      assert (id, s.requests[id].reply.response) in s.heard;
    }
    if s.requests[id].reply.Open? {
      assert id in s.pending || HeldByReader(s, id);
    }
    forall r: Response | (id, r) in s.heard && !HeldByReader(s, id) ensures s.requests[id].reply == Sent(r) {
      var i :| 0 <= i < |s.heard| && s.heard[i] == (id, r);
      assert Reached(s, id, r);
    }
  }

  /** And every response arrives: whenever, in any run, the reader hears the response to a
      request that waits unanswered, the request ends with that response. */
  lemma EveryResponseArrives(steps: seq<Step>, id: nat, r: Response)
    requires var s := Run(steps); Is(s, id, Waiting) && s.reader.Reading? && s.requests[id].reply.Open?
    ensures var got := Take(Run(steps), ReaderGets(id, r));
            var sent := Take(got, ReaderSends);
            && sent.reader.Reading? && Is(sent, id, Waiting)
            && Is(Take(sent, Hear(id)), id, Over(Response(r)))
  {
    EveryRunSound(steps);
    GetsIt(Run(steps), id, r);
    SendsIt(Take(Run(steps), ReaderGets(id, r)), id, r);
  }

  lemma GetsIt(s: State, id: nat, r: Response)
    requires Is(s, id, Waiting) && s.reader.Reading? && s.requests[id].reply.Open? && SendersSound(s)
    ensures var got := Take(s, ReaderGets(id, r)); got.reader == Handing(id, r) && Is(got, id, Waiting)
  {
  }

  lemma SendsIt(s: State, id: nat, r: Response)
    requires Is(s, id, Waiting) && s.reader == Handing(id, r)
    ensures var sent := Take(s, ReaderSends); sent.reader.Reading? && Is(sent, id, Waiting)
    ensures Is(Take(Take(s, ReaderSends), Hear(id)), id, Over(Response(r)))
  {
  }

  predicate EndsWith(s: State, id: nat, outcome: Outcome) { Is(s, id, Over(outcome)) && id !in s.pending }

  /** A request not answered in time ends with a timeout. */
  lemma TimesOut(s: State, id: nat)
    requires Is(s, id, Waiting) && s.requests[id].reply.Open?
    ensures EndsWith(Take(Take(s, TimeOut(id)), Remove(id)), id, Timeout)
  {
  }

  /** One given up by its caller once entered is over; its entry is left to the reader,
      which drops it with its response or when it is done. */
  lemma IsCancelled(s: State, id: nat, r: Response)
    requires (Is(s, id, Checked) || Is(s, id, Waiting)) && id in s.pending
    ensures var t := Take(s, Cancel(id));
            && Is(t, id, Over(Cancelled)) && t.pending == s.pending
            && (s.reader.Reading? ==> id !in Take(t, ReaderGets(id, r)).pending)
            && (s.reader.Flagged? ==> Take(t, ReaderClears).pending == {})
  {
  }

  /** One made when the reader is done ends disconnected; before that it is sent, and
      waits, or ends disconnected when it cannot be sent. */
  lemma IsSentUnlessTheReaderIsDone(s: State, id: nat)
    requires Is(s, id, Inserted)
    ensures var checked := Take(s, Check(id));
            if s.flag then EndsWith(Take(checked, Remove(id)), id, Disconnected)
            else
              && Is(Take(checked, SendOut(id, true)), id, Waiting)
              && EndsWith(Take(Take(checked, SendOut(id, false)), Remove(id)), id, Disconnected)
  {
  }

  // ---- Every request comes to its end ----

  /** Steps of its own a request has left once the reader is done. */
  function Left(r: Request): nat {
    match r.phase
    case Claimed => 4
    case Inserted => 3
    case Checked => 3
    case Waiting => 2
    case Leaving(_) => 1
    case Over(_) => 0
  }

  /** What a request does next. */
  function OwnStep(r: Request, id: nat, ok: bool): Step {
    match r.phase
    case Claimed => Insert(id)
    case Inserted => Check(id)
    case Checked => SendOut(id, ok)
    case Waiting => Hear(id)
    case _ => Remove(id)
  }

  /** Whether a step is what the request does next, whichever way its sending goes. */
  predicate IsOwn(s: State, step: Step, id: nat) {
    id < |s.requests| && !s.requests[id].phase.Over? && exists ok :: step == OwnStep(s.requests[id], id, ok)
  }

  /** How many of `more`, which follow `steps`, are the request's own. */
  ghost function OwnSteps(steps: seq<Step>, more: seq<Step>, id: nat): nat
    decreases |more|
  {
    if more == [] then 0
    else
      var before := more[..|more| - 1];
      OwnSteps(steps, before, id) + if IsOwn(Run(steps + before), more[|more| - 1], id) then 1 else 0
  }

  /** Once the reader is done, however steps of all tasks interleave, each of a request's
      own steps brings it nearer its end and no other step moves it back or makes the
      reader go on; after four of its own steps at most it is over, with nothing left of
      it in the map, and until then its next step goes on, whichever way its sending
      goes. */
  lemma ComesToItsEnd(steps: seq<Step>, more: seq<Step>, id: nat)
    requires var s := Run(steps); s.reader.Cleared? && id < |s.requests|
    ensures var t, own := Run(steps + more), OwnSteps(steps, more, id);
            && t.reader.Cleared? && id < |t.requests|
            && own <= 4
            && (own == 4 ==> t.requests[id].phase.Over?)
            && (t.requests[id].phase.Over? ==> id !in t.pending)
            && (!t.requests[id].phase.Over? ==>
                  forall ok :: Left(Take(t, OwnStep(t.requests[id], id, ok)).requests[id]) < Left(t.requests[id]))
  {
    StepsLeft(steps, more, id);
    EveryRunSound(steps + more);
    var t := Run(steps + more);
    forall ok | !t.requests[id].phase.Over?
      ensures Left(Take(t, OwnStep(t.requests[id], id, ok)).requests[id]) < Left(t.requests[id])
    {
      OwnStepGoesOn(t, id, ok);
    }
    OwnStepGoesOn(t, id, true);
  }

  lemma {:induction false} StepsLeft(steps: seq<Step>, more: seq<Step>, id: nat)
    requires var s := Run(steps); s.reader.Cleared? && id < |s.requests|
    ensures var s, t := Run(steps), Run(steps + more);
            && t.reader.Cleared? && id < |t.requests|
            && Left(t.requests[id]) + OwnSteps(steps, more, id) <= Left(s.requests[id]) <= 4
    decreases |more|
  {
    if more == [] {
      assert steps + more == steps;
    } else {
      var before, last := more[..|more| - 1], more[|more| - 1];
      StepsLeft(steps, before, id);
      OneMoreStep(steps, more);
      OneStepLess(Run(steps + before), last, id) by {
        EveryRunSound(steps + before);
      }
    }
  }

  lemma OneMoreStep(steps: seq<Step>, more: seq<Step>)
    requires more != []
    ensures Run(steps + more) == Take(Run(steps + more[..|more| - 1]), more[|more| - 1])
  {
    assert (steps + more)[..|steps + more| - 1] == steps + more[..|more| - 1];
  }

  lemma OneStepLess(s: State, step: Step, id: nat)
    requires Sound(s) && s.reader.Cleared? && id < |s.requests|
    ensures var t := Take(s, step);
            && t.reader.Cleared? && id < |t.requests|
            && Left(t.requests[id]) + (if IsOwn(s, step, id) then 1 else 0) <= Left(s.requests[id])
  {
    OthersDoNotDelay(s, id, step);
    if IsOwn(s, step, id) {
      var ok :| step == OwnStep(s.requests[id], id, ok);
      OwnStepGoesOn(s, id, ok);
    }
  }

  lemma OwnStepGoesOn(s: State, id: nat, ok: bool)
    requires Sound(s) && s.reader.Cleared? && id < |s.requests|
    ensures s.requests[id].phase.Over? || Left(Take(s, OwnStep(s.requests[id], id, ok)).requests[id]) < Left(s.requests[id])
    ensures s.requests[id].phase.Over? ==> id !in s.pending
  {
  }

  lemma OthersDoNotDelay(s: State, id: nat, other: Step)
    requires Sound(s) && s.reader.Cleared? && id < |s.requests|
    ensures Take(s, other).reader.Cleared? && id < |Take(s, other).requests|
    ensures Left(Take(s, other).requests[id]) <= Left(s.requests[id])
  {
  }
}
