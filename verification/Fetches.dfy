/** Which fetches a run begins, for which streams, and whose results count: a stream may
    be replaced before the save it names has come. */
module Fetches {
  import opened Protocol
  import opened Trace
  import opened HookLink
  import opened BridgeSpec
  import opened Segments
  import opened System
  import opened Orders
  import F = FollowerSpec

  /** A fetch begun: the number it will answer under, and the stream it is for. */
  datatype Fetch = Fetch(attempt: nat, start: TurnStart)

  /** The stream a step took up, if it did not just continue the one followed. */
  function StreamOf(s: Sys, step: Step, t: Sys): seq<TurnStart> {
    if step.Stream? && !s.over && !t.over && !Continues(s.b, step.start) then [step.start] else []
  }

  /** The fetch it began. */
  function FetchOf(s: Sys, step: Step, t: Sys): seq<Fetch> {
    if step.Stream? && !s.over && !t.over && step.start.world.Some? then
      [Fetch(if t.b.world.Fetching? then t.b.world.attempt else 0, step.start)]
    else []
  }

  function Streams(run: seq<Sys>, steps: seq<Step>, k: nat): seq<TurnStart>
    requires |run| == |steps| + 1 && k < |run|
  {
    if k == 0 then [] else Streams(run, steps, k - 1) + StreamOf(run[k - 1], steps[k - 1], run[k])
  }

  function Begun(run: seq<Sys>, steps: seq<Step>, k: nat): seq<Fetch>
    requires |run| == |steps| + 1 && k < |run|
  {
    if k == 0 then [] else Begun(run, steps, k - 1) + FetchOf(run[k - 1], steps[k - 1], run[k])
  }

  /** The stream of the first fetch that has this number. */
  function Named(fetches: seq<Fetch>, attempt: nat): Option<TurnStart> {
    if fetches == [] then None
    else if fetches[0].attempt == attempt then Some(fetches[0].start)
    else Named(fetches[1..], attempt)
  }

  /** The stream a load that a step orders is for: the one that comes with the step, or
      the one whose fetch it answers. */
  function ForOf(s: Sys, step: Step, fetches: seq<Fetch>): seq<Option<TurnStart>> {
    if OrderOf(s, step) == [] then []
    else if step.Stream? then [Some(step.start)]
    else if step.Fetched? then [Named(fetches, step.attempt)]
    else []
  }

  /** For each order of the run, the stream it is for. */
  function OrderedFor(run: seq<Sys>, steps: seq<Step>, k: nat): seq<Option<TurnStart>>
    requires |run| == |steps| + 1 && k < |run|
  {
    if k == 0 then []
    else OrderedFor(run, steps, k - 1) + ForOf(run[k - 1], steps[k - 1], Begun(run, steps, k - 1))
  }

  // ---- What every run keeps ----

  /** Every fetch has a number no earlier one had. */
  ghost predicate Numbered(fetches: seq<Fetch>, attempts: nat) {
    && (forall i, j :: 0 <= i < j < |fetches| ==> fetches[i].attempt < fetches[j].attempt)
    && (forall f <- fetches :: f.attempt <= attempts)
  }

  /** What is fetched is for the stream followed, which names the step to load it at. */
  ghost predicate FetchedFor(world: World, streams: seq<TurnStart>, fetches: seq<Fetch>) {
    world.Fetching? ==>
      && streams != [] && fetches != []
      && fetches[|fetches| - 1] == Fetch(world.attempt, streams[|streams| - 1])
      && streams[|streams| - 1].world.Some? && world.nextStep == streams[|streams| - 1].sealedThrough + 1
  }

  /** Each order is for the stream its era follows, and is of a save exactly when that
      stream names one. */
  predicate IsFor(order: ToHook, start: Option<TurnStart>, era: Era) {
    && order.Load? && start.Some? && era.start == FrontierOf(start.value)
    && order.nextStep == start.value.sealedThrough + 1
    && (order.file.Some? <==> start.value.world.Some?)
  }

  ghost predicate AllFor(orders: seq<ToHook>, fors: seq<Option<TurnStart>>, eras: seq<Era>) {
    |orders| == |fors| == |eras| && forall i :: 0 <= i < |orders| ==> IsFor(orders[i], fors[i], eras[i])
  }

  ghost predicate InTouch(s: Sys, streams: seq<TurnStart>, fetches: seq<Fetch>, orders: seq<ToHook>,
                          fors: seq<Option<TurnStart>>) {
    && Numbered(fetches, s.b.attempts) && FetchedFor(s.b.world, streams, fetches)
    && (s.b.follower.Some? ==> streams != [] && s.era.start == FrontierOf(streams[|streams| - 1]))
    && (s.b.world.Fetching? ==> s.b.follower.Some?)
    && AllFor(orders, fors, s.eras) && EraKept(s)
  }

  /** While a game is there or on its way, the latest order's era is the one followed. */
  ghost predicate EraKept(s: Sys) { s.eras != [] && !s.b.world.Fetching? ==> s.eras[|s.eras| - 1] == s.era }

  lemma {:induction false} LastNamed(fetches: seq<Fetch>, attempts: nat)
    requires fetches != [] && Numbered(fetches, attempts)
    ensures var last := fetches[|fetches| - 1]; Named(fetches, last.attempt) == Some(last.start)
  {
    if |fetches| > 1 {
      LastNamed(fetches[1..], attempts);
    }
  }

  lemma OneMoreNumbered(fetches: seq<Fetch>, attempts: nat, f: Fetch)
    requires Numbered(fetches, attempts) && f.attempt == attempts + 1
    ensures Numbered(fetches + [f], attempts + 1)
  {
  }

  lemma OneMoreFor(orders: seq<ToHook>, fors: seq<Option<TurnStart>>, eras: seq<Era>, order: ToHook, start: TurnStart, era: Era)
    requires AllFor(orders, fors, eras) && IsFor(order, Some(start), era)
    ensures AllFor(orders + [order], fors + [Some(start)], eras + [era])
  {
  }

  /** What a stream does to the world, the numbers and the follower. */
  lemma StreamDoes(b: Bridge, start: TurnStart, keepsWorlds: bool, intro: nat)
    requires OnStream(b, start, keepsWorlds, intro).Ok?
    ensures var c := OnStream(b, start, keepsWorlds, intro).value;
            && c.follower.Some?
            && (if start.world.Some? then
                  c.world == Fetching(start.sealedThrough + 1, b.attempts + 1) && c.attempts == b.attempts + 1
                  && c.loadGeneration == b.loadGeneration
                else if StartsAnew(b.follower, start) then
                  c.world.Loading? && c.attempts == b.attempts && c.loadGeneration == b.loadGeneration + 1
                else
                  && b.follower.Some? && F.Restart(b.follower.value, start).Ok? && c.world == b.world
                  && c.attempts == b.attempts && c.loadGeneration == b.loadGeneration)
  {
  }

  /** A stream whose save is to be fetched. */
  lemma FetchTouch(s: Sys, t: Sys, start: TurnStart, streams: seq<TurnStart>, fetches: seq<Fetch>, orders: seq<ToHook>,
                   fors: seq<Option<TurnStart>>)
    requires InTouch(s, streams, fetches, orders, fors) && start.world.Some?
    requires t.b.world == Fetching(start.sealedThrough + 1, s.b.attempts + 1) && t.b.attempts == s.b.attempts + 1
    requires t.b.follower.Some? && t.era == Era(FrontierOf(start), []) && t.eras == s.eras
    ensures InTouch(t, streams + [start], fetches + [Fetch(s.b.attempts + 1, start)], orders, fors)
  {
    OneMoreNumbered(fetches, s.b.attempts, Fetch(s.b.attempts + 1, start));
  }

  /** A stream that brings a world without a save. */
  lemma AnewTouch(s: Sys, t: Sys, start: TurnStart, streams: seq<TurnStart>, fetches: seq<Fetch>, orders: seq<ToHook>,
                  fors: seq<Option<TurnStart>>)
    requires InTouch(s, streams, fetches, orders, fors) && start.world.None?
    requires t.b.world.Loading? && t.b.attempts == s.b.attempts && t.b.follower.Some?
    requires t.era == Era(FrontierOf(start), []) && t.eras == s.eras + [t.era]
    ensures InTouch(t, streams + [start], fetches, orders + [Load(None, start.sealedThrough + 1)], fors + [Some(start)])
  {
    OneMoreFor(orders, fors, s.eras, Load(None, start.sealedThrough + 1), start, t.era);
  }

  lemma StreamTouch(s: Sys, start: TurnStart, keepsWorlds: bool, intro: nat, streams: seq<TurnStart>, fetches: seq<Fetch>,
                    orders: seq<ToHook>, fors: seq<Option<TurnStart>>)
    requires InTouch(s, streams, fetches, orders, fors) && !s.over && OnStream(s.b, start, keepsWorlds, intro).Ok?
    ensures var step, t := Stream(start, keepsWorlds, intro), Streamed(s, start, keepsWorlds, intro);
            !t.over && InTouch(t, streams + StreamOf(s, step, t), fetches + FetchOf(s, step, t), orders + OrderOf(s, step),
                               fors + ForOf(s, step, fetches))
  {
    var step, t := Stream(start, keepsWorlds, intro), Streamed(s, start, keepsWorlds, intro);
    StreamDoes(s.b, start, keepsWorlds, intro);
    assert streams + [] == streams && fetches + [] == fetches && orders + [] == orders && fors + [] == fors;
    if start.world.Some? {
      FetchTouch(s, t, start, streams, fetches, orders, fors);
    } else if StartsAnew(s.b.follower, start) {
      AnewTouch(s, t, start, streams, fetches, orders, fors);
    } else {
      Untouched(s, t, streams, fetches, orders, fors);
    }
  }

  lemma SaveTouch(s: Sys, attempt: nat, file: string, streams: seq<TurnStart>, fetches: seq<Fetch>, orders: seq<ToHook>,
                  fors: seq<Option<TurnStart>>)
    requires InTouch(s, streams, fetches, orders, fors) && !s.over
    ensures var step, t := Fetched(attempt, file), WithSave(s, attempt, file);
            InTouch(t, streams, fetches, orders + OrderOf(s, step), fors + ForOf(s, step, fetches))
  {
    assert orders + [] == orders && fors + [] == fors;
    if s.b.world.Fetching? && attempt == s.b.world.attempt && |file| <= MAX_PATH {
      LastNamed(fetches, s.b.attempts);
      OneMoreFor(orders, fors, s.eras, Load(Some(file), s.b.world.nextStep), streams[|streams| - 1], s.era);
    }
  }

  lemma TurnTouch(s: Sys, turn: Turn, streams: seq<TurnStart>, fetches: seq<Fetch>, orders: seq<ToHook>,
                  fors: seq<Option<TurnStart>>)
    requires InTouch(s, streams, fetches, orders, fors)
    ensures InTouch(Turned(s, turn), streams, fetches, orders, fors)
  {
  }

  lemma Untouched(s: Sys, t: Sys, streams: seq<TurnStart>, fetches: seq<Fetch>, orders: seq<ToHook>,
                  fors: seq<Option<TurnStart>>)
    requires InTouch(s, streams, fetches, orders, fors)
    requires t.b.attempts == s.b.attempts && t.era == s.era && t.eras == s.eras && t.b.follower.Some? == s.b.follower.Some?
    requires t.b.world == s.b.world || (!s.b.world.Fetching? && !t.b.world.Fetching?)
    ensures InTouch(t, streams, fetches, orders, fors)
  {
  }

  lemma OtherTouch(s: Sys, step: Step, streams: seq<TurnStart>, fetches: seq<Fetch>, orders: seq<ToHook>,
                   fors: seq<Option<TurnStart>>)
    requires InTouch(s, streams, fetches, orders, fors) && !step.Stream? && !step.Fetched? && !step.TakeTurn?
    ensures InTouch(Next(s, step), streams, fetches, orders, fors)
  {
    if step.Read? {
      HearLeavesWorld(s);
    } else {
      LeavesWorld(s, step);
    }
    Untouched(s, Next(s, step), streams, fetches, orders, fors);
  }

  lemma HearLeavesWorld(s: Sys)
    ensures var t := Listened(s);
            && t.b.attempts == s.b.attempts && t.era == s.era && t.eras == s.eras && t.b.follower == s.b.follower
            && (t.b.world == s.b.world || (!s.b.world.Fetching? && !t.b.world.Fetching?))
  {
  }

  lemma LeavesWorld(s: Sys, step: Step)
    requires !step.Stream? && !step.Fetched? && !step.TakeTurn? && !step.Read?
    ensures var t := Next(s, step);
            && t.b.attempts == s.b.attempts && t.era == s.era && t.eras == s.eras
            && t.b.follower.Some? == s.b.follower.Some?
            && (t.b.world == s.b.world || (!s.b.world.Fetching? && !t.b.world.Fetching?))
  {
  }

  lemma StepTouch(s: Sys, step: Step, t: Sys, streams: seq<TurnStart>, fetches: seq<Fetch>, orders: seq<ToHook>,
                  fors: seq<Option<TurnStart>>)
    requires InTouch(s, streams, fetches, orders, fors) && t == Next(s, step)
    ensures InTouch(t, streams + StreamOf(s, step, t), fetches + FetchOf(s, step, t), orders + OrderOf(s, step),
                    fors + ForOf(s, step, fetches))
  {
    if !s.over && step.Stream? && OnStream(s.b, step.start, step.keepsWorlds, step.intro).Ok? {
      StreamTouch(s, step.start, step.keepsWorlds, step.intro, streams, fetches, orders, fors);
    } else {
      NothingBegun(s, step, t, streams, fetches, orders, fors);
    }
  }

  lemma NothingBegun(s: Sys, step: Step, t: Sys, streams: seq<TurnStart>, fetches: seq<Fetch>, orders: seq<ToHook>,
                     fors: seq<Option<TurnStart>>)
    requires InTouch(s, streams, fetches, orders, fors) && t == Next(s, step)
    requires s.over || !step.Stream? || OnStream(s.b, step.start, step.keepsWorlds, step.intro).Err?
    ensures InTouch(t, streams + StreamOf(s, step, t), fetches + FetchOf(s, step, t), orders + OrderOf(s, step),
                    fors + ForOf(s, step, fetches))
  {
    assert streams + StreamOf(s, step, t) == streams && fetches + FetchOf(s, step, t) == fetches;
    if !s.over && step.Fetched? {
      SaveTouch(s, step.attempt, step.file, streams, fetches, orders, fors);
    } else {
      NoOrder(s, step);
      assert orders + [] == orders && fors + [] == fors;
      if !s.over && step.TakeTurn? {
        TurnTouch(s, step.turn, streams, fetches, orders, fors);
      } else if !s.over && !step.Stream? {
        OtherTouch(s, step, streams, fetches, orders, fors);
      } else {
        Untouched(s, t, streams, fetches, orders, fors);
      }
    }
  }

  lemma NoOrder(s: Sys, step: Step)
    requires s.over || !step.Fetched?
    requires s.over || !step.Stream? || OnStream(s.b, step.start, step.keepsWorlds, step.intro).Err?
    ensures OrderOf(s, step) == []
  {
  }

  /** In touch at every moment until `k`. */
  ghost predicate KeepsInTouch(run: seq<Sys>, steps: seq<Step>, k: nat)
    requires |run| == |steps| + 1 && k < |run|
  {
    && (k > 0 ==> KeepsInTouch(run, steps, k - 1))
    && InTouch(run[k], Streams(run, steps, k), Begun(run, steps, k), Ordered(run, steps, k), OrderedFor(run, steps, k))
  }

  lemma BeginsInTouch(run: seq<Sys>, steps: seq<Step>)
    requires IsRun(run, steps)
    ensures KeepsInTouch(run, steps, 0)
  {
  }

  lemma OneStepMore(run: seq<Sys>, steps: seq<Step>, k: nat)
    requires IsRun(run, steps) && 0 < k < |run| && KeepsInTouch(run, steps, k - 1)
    ensures KeepsInTouch(run, steps, k)
  {
    assert Moved(run, steps, k - 1);
    StepTouch(run[k - 1], steps[k - 1], run[k], Streams(run, steps, k - 1), Begun(run, steps, k - 1),
              Ordered(run, steps, k - 1), OrderedFor(run, steps, k - 1));
  }

  /** In every run: fetches are numbered as they begin, each order is for the stream its
      era follows, and what is being fetched is for the stream followed now. */
  lemma {:induction false} EveryRunInTouch(run: seq<Sys>, steps: seq<Step>, k: nat)
    requires IsRun(run, steps) && k < |run|
    ensures KeepsInTouch(run, steps, k)
  {
    if k == 0 {
      BeginsInTouch(run, steps);
    } else {
      EveryRunInTouch(run, steps, k - 1);
      OneStepMore(run, steps, k);
    }
  }

  /** At every moment of every run, the result of a fetch counts exactly when it is the
      latest that was begun and is still waited for; it then orders the load of the stream
      followed now, at that stream's step. The result of any earlier one, whose stream was
      replaced, changes nothing. */
  lemma OnlyTheLatestFetchCounts(run: seq<Sys>, steps: seq<Step>, k: nat, i: nat, file: string)
    requires IsRun(run, steps) && k < |run| && i < |Begun(run, steps, k)|
    ensures var s, fetches, streams := run[k], Begun(run, steps, k), Streams(run, steps, k);
            if i == |fetches| - 1 && s.b.world.Fetching? then
              && streams != [] && fetches[i].start == streams[|streams| - 1]
              && OnFetched(s.b, fetches[i].attempt, file)
                 == OrderLoad(s.b, Some(file), streams[|streams| - 1].sealedThrough + 1)
            else OnFetched(s.b, fetches[i].attempt, file) == Ok(s.b)
  {
    EveryRunInTouch(run, steps, k);
  }

  /** And every load ordered is for the stream that its era follows: it is of a save
      exactly when that stream names one, and then of the save fetched for that stream. */
  lemma EveryOrderIsForItsStream(run: seq<Sys>, steps: seq<Step>, k: nat, i: nat)
    requires IsRun(run, steps) && k < |run| && i < |Ordered(run, steps, k)|
    ensures |OrderedFor(run, steps, k)| == |run[k].eras| == |Ordered(run, steps, k)|
    ensures IsFor(Ordered(run, steps, k)[i], OrderedFor(run, steps, k)[i], run[k].eras[i])
  {
    EveryRunInTouch(run, steps, k);
  }
}
