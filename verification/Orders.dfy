/** Which loads a run orders, told from its steps, and what becomes of them: the
    latest may wait, each was sent as it was ordered, and what the hook is told,
    loads and plays is an order, file and step. */
module Orders {
  import opened Protocol
  import opened HookLink
  import opened BridgeSpec
  import opened System
  import F = FollowerSpec
  import O = Outbox
  import P = Pump

  /** Whether a stream brings a new world without a save: there is no game yet, or it
      replays the game whole and does not continue what is followed. */
  predicate StartsAnew(follower: Option<F.State>, start: TurnStart) {
    && start.world.None?
    && (follower.None? || (start.nextEvent == 1 && start.sealedThrough == 0 && F.Restart(follower.value, start).Err?))
  }

  /** The load a step orders, if it orders one: the first world, or the save that was
      fetched for the stream followed. */
  function OrderOf(s: Sys, step: Step): seq<ToHook> {
    if s.over then []
    else
      match step
      case Stream(start, _, _) =>
        if StartsAnew(s.b.follower, start) then [Load(None, start.sealedThrough + 1)] else []
      case Fetched(attempt, file) =>
        if s.b.world.Fetching? && attempt == s.b.world.attempt && |file| <= MAX_PATH then
          [Load(Some(file), s.b.world.nextStep)]
        else []
      case _ => []
  }

  /** All that was ordered before the run's state `k`, in order. */
  function Ordered(run: seq<Sys>, steps: seq<Step>, k: nat): seq<ToHook>
    requires |run| == |steps| + 1 && k < |run|
  {
    if k == 0 then [] else Ordered(run, steps, k - 1) + OrderOf(run[k - 1], steps[k - 1])
  }

  function LoadsOf(log: seq<ToHook>): seq<ToHook> {
    if log == [] then []
    else
      var last := log[|log| - 1];
      LoadsOf(log[..|log| - 1]) + if last.Load? then [last] else []
  }

  // ---- What becomes of the orders ----

  /** Any load that waits is the latest order. */
  predicate Waits(outbox: seq<ToHook>, orders: seq<ToHook>) {
    forall m <- outbox :: m.Load? ==> orders != [] && m == orders[|orders| - 1]
  }

  /** Each load sent is the order its generation numbers. */
  predicate SentAsOrdered(loads: seq<ToHook>, sent: seq<nat>, orders: seq<ToHook>) {
    && |loads| == |sent|
    && forall i :: 0 <= i < |sent| ==> 1 <= sent[i] <= |orders| && loads[i] == orders[sent[i] - 1]
  }

  predicate NumbersIt(t: Tagged<ToHook>, orders: seq<ToHook>) {
    t.message.Load? ==> 1 <= t.world <= |orders| && t.message == orders[t.world - 1]
  }

  /** What the hook plays is the order its world is numbered by. */
  predicate PlaysIt(hook: Hook, orders: seq<ToHook>) {
    if hook.world == 0 then hook.plays.None?
    else hook.world <= |orders| && hook.plays == Some(orders[hook.world - 1])
  }

  ghost predicate InOrder(s: Sys, orders: seq<ToHook>) {
    && |orders| == s.b.loadGeneration
    && Waits(s.b.outbox, orders) && SentAsOrdered(LoadsOf(s.log), s.sent, orders)
    && (forall t <- s.link :: NumbersIt(t, orders)) && (forall t <- s.hook.orders :: NumbersIt(t, orders))
    && PlaysIt(s.hook, orders)
  }

  // ---- Each step keeps it ----

  /** No load was ordered, and none was added to what waits. */
  lemma NoneOrdered(s: Sys, t: Sys, orders: seq<ToHook>)
    requires InOrder(s, orders) && t.b.loadGeneration == s.b.loadGeneration
    requires forall m <- t.b.outbox :: m.Load? ==> m in s.b.outbox
    requires t.log == s.log && t.sent == s.sent && t.link == s.link && t.hook == s.hook
    ensures InOrder(t, orders)
  {
  }

  /** A load was ordered, and no other waits. */
  lemma OneOrdered(s: Sys, t: Sys, orders: seq<ToHook>, order: ToHook)
    requires InOrder(s, orders) && t.b.loadGeneration == s.b.loadGeneration + 1
    requires forall m <- t.b.outbox :: m.Load? ==> m == order
    requires t.log == s.log && t.sent == s.sent && t.link == s.link && t.hook == s.hook
    ensures InOrder(t, orders + [order])
  {
    var more := orders + [order];
    assert forall x <- s.link :: NumbersIt(x, orders) ==> NumbersIt(x, more);
    assert forall x <- s.hook.orders :: NumbersIt(x, orders) ==> NumbersIt(x, more);
  }

  lemma VoidHolds(b: Bridge)
    ensures forall m <- VoidWorld(b).outbox :: !m.Load?
  {
    O.KeepOnly(b.outbox, Stays());
  }

  lemma StreamOrders(s: Sys, start: TurnStart, keepsWorlds: bool, intro: nat, orders: seq<ToHook>)
    requires InOrder(s, orders) && !s.over
    ensures InOrder(Streamed(s, start, keepsWorlds, intro), orders + OrderOf(s, Stream(start, keepsWorlds, intro)))
  {
    var t := Streamed(s, start, keepsWorlds, intro);
    if StartsAnew(s.b.follower, start) {
      StreamOrdersOne(s.b, start, keepsWorlds, intro);
      OneOrdered(s, t, orders, Load(None, start.sealedThrough + 1));
    } else {
      StreamOrdersNone(s, start, keepsWorlds, intro);
      NoneOrdered(s, t, orders);
      assert orders + [] == orders;
    }
  }

  lemma StreamOrdersOne(b: Bridge, start: TurnStart, keepsWorlds: bool, intro: nat)
    requires StartsAnew(b.follower, start)
    ensures var r := OnStream(b, start, keepsWorlds, intro);
            && r.Ok? && r.value.loadGeneration == b.loadGeneration + 1
            && forall m <- r.value.outbox :: m.Load? ==> m == Load(None, start.sealedThrough + 1)
  {
    var c := if b.begun then b else b.(begun := true, outbox := b.outbox + [ToHook.Begin(intro)]);
    VoidHolds(c.(follower := Some(F.New(start))));
  }

  lemma StreamOrdersNone(s: Sys, start: TurnStart, keepsWorlds: bool, intro: nat)
    requires !StartsAnew(s.b.follower, start)
    ensures var t := Streamed(s, start, keepsWorlds, intro);
            && t.b.loadGeneration == s.b.loadGeneration
            && forall m <- t.b.outbox :: m.Load? ==> m in s.b.outbox
  {
    var c := if s.b.begun then s.b else s.b.(begun := true, outbox := s.b.outbox + [ToHook.Begin(intro)]);
    VoidHolds(c.(follower := Some(F.New(start))));
  }

  lemma FetchOrders(s: Sys, attempt: nat, file: string, orders: seq<ToHook>)
    requires InOrder(s, orders) && !s.over
    ensures InOrder(WithSave(s, attempt, file), orders + OrderOf(s, Fetched(attempt, file)))
  {
    var t := WithSave(s, attempt, file);
    VoidHolds(s.b);
    if OrderOf(s, Fetched(attempt, file)) != [] {
      OneOrdered(s, t, orders, Load(Some(file), s.b.world.nextStep));
    } else {
      NoneOrdered(s, t, orders);
      assert orders + [] == orders;
    }
  }

  lemma PlayOrders(s: Sys, due: nat -> Option<nat>, now: nat, orders: seq<ToHook>)
    requires InOrder(s, orders) && (s.b.follower.Some? ==> F.Valid(s.b.follower.value))
    ensures InOrder(Played(s, due, now), orders)
  {
    if s.b.follower.Some? {
      P.PumpRefines(s.b.follower.value, O.Weights(s.b.outbox), due, now);
    }
    NoneOrdered(s, Played(s, due, now), orders);
  }

  lemma TurnOrders(s: Sys, turn: Turn, orders: seq<ToHook>)
    requires InOrder(s, orders)
    ensures InOrder(Turned(s, turn), orders)
  {
    NoneOrdered(s, Turned(s, turn), orders);
  }

  lemma SayOrders(s: Sys, kind: nat, carried: nat, orders: seq<ToHook>)
    requires InOrder(s, orders)
    ensures InOrder(Telling(s, kind, carried), orders)
  {
    NoneOrdered(s, Telling(s, kind, carried), orders);
  }

  lemma ShowOrders(s: Sys, from: Player, preview: Option<seq<Byte>>, orders: seq<ToHook>)
    requires InOrder(s, orders)
    ensures InOrder(Showed(s, from, preview), orders)
  {
    O.KeepOnly(s.b.outbox, O.NotPreviewOf(from));
    NoneOrdered(s, Showed(s, from, preview), orders);
  }

  lemma LobbyOrders(s: Sys, carried: nat, orders: seq<ToHook>)
    requires InOrder(s, orders)
    ensures InOrder(LobbyTold(s, carried), orders)
  {
    O.KeepOnly(s.b.outbox, NotLobby());
    NoneOrdered(s, LobbyTold(s, carried), orders);
  }

  lemma HearOrders(s: Sys, count: nat, orders: seq<ToHook>)
    requires InOrder(s, orders)
    ensures InOrder(Listened(s), orders) && InOrder(KeptAway(s, count), orders)
  {
    NoneOrdered(s, Listened(s), orders);
    NoneOrdered(s, KeptAway(s, count), orders);
  }

  lemma SendOrders(s: Sys, orders: seq<ToHook>)
    requires InOrder(s, orders)
    ensures InOrder(SentOut(s), orders)
  {
    if s.b.hookReady && s.b.outbox != [] {
      var m := s.b.outbox[0];
      assert m in s.b.outbox && forall x <- s.b.outbox[1..] :: x in s.b.outbox;
      OneMoreSent(s.log, s.sent, orders, m, s.b.loadGeneration);
      OneMoreLinked(s.link, Tagged(m, s.b.loadGeneration), orders);
    }
  }

  lemma OneMoreSent(log: seq<ToHook>, sent: seq<nat>, orders: seq<ToHook>, m: ToHook, generation: nat)
    requires SentAsOrdered(LoadsOf(log), sent, orders) && generation == |orders|
    requires m.Load? ==> orders != [] && m == orders[|orders| - 1]
    ensures SentAsOrdered(LoadsOf(log + [m]), if m.Load? then sent + [generation] else sent, orders)
  {
    assert (log + [m])[..|log|] == log;
    if m.Load? {
      assert LoadsOf(log + [m]) == LoadsOf(log) + [m];
      OneMoreAsOrdered(LoadsOf(log), sent, orders);
    } else {
      assert LoadsOf(log + [m]) == LoadsOf(log) + [] == LoadsOf(log);
    }
  }

  lemma OneMoreAsOrdered(loads: seq<ToHook>, sent: seq<nat>, orders: seq<ToHook>)
    requires SentAsOrdered(loads, sent, orders) && orders != []
    ensures SentAsOrdered(loads + [orders[|orders| - 1]], sent + [|orders|], orders)
  {
    var more, all := sent + [|orders|], loads + [orders[|orders| - 1]];
    forall i | 0 <= i < |more| ensures 1 <= more[i] <= |orders| && all[i] == orders[more[i] - 1] {
      assert i < |sent| ==> more[i] == sent[i] && all[i] == loads[i];
    }
  }

  lemma OneMoreLinked(link: seq<Tagged<ToHook>>, t: Tagged<ToHook>, orders: seq<ToHook>)
    requires (forall x <- link :: NumbersIt(x, orders)) && NumbersIt(t, orders)
    ensures forall x <- link + [t] :: NumbersIt(x, orders)
  {
  }

  lemma HookOrders(s: Sys, step: Step, orders: seq<ToHook>)
    requires InOrder(s, orders) && !s.over
    requires step.HookGreets? || step.HookReads? || step.HookLoads? || step.HookTells?
    ensures InOrder(Next(s, step), orders)
  {
    if step.HookReads? && s.link != [] {
      assert s.link[0] in s.link;
    }
    if step.HookLoads? && s.hook.orders != [] {
      assert s.hook.orders[0] in s.hook.orders;
    }
  }

  /** After every step the orders are those before and what the step orders. */
  lemma NextInOrder(s: Sys, step: Step, orders: seq<ToHook>)
    requires InOrder(s, orders) && (s.b.follower.Some? ==> F.Valid(s.b.follower.value))
    ensures InOrder(Next(s, step), orders + OrderOf(s, step))
  {
    assert orders + [] == orders;
    if s.over {
      return;
    }
    match step
    case Stream(start, keepsWorlds, intro) => StreamOrders(s, start, keepsWorlds, intro, orders);
    case Fetched(attempt, file) => FetchOrders(s, attempt, file, orders);
    case Play(due, now) => PlayOrders(s, due, now, orders);
    case TakeTurn(turn) => TurnOrders(s, turn, orders);
    case Say(kind, carried) => SayOrders(s, kind, carried, orders);
    case Show(from, preview) => ShowOrders(s, from, preview, orders);
    case LobbyNews(carried) => LobbyOrders(s, carried, orders);
    case Send => SendOrders(s, orders);
    case Read => HearOrders(s, 0, orders);
    case Away(count) => HearOrders(s, count, orders);
    case _ => HookOrders(s, step, orders);
  }
}
