/** A load may be replaced before its answer arrives, even at the same step: in
    every run of the system only the latest order's answer and reports count. */
module Loads {
  import opened Protocol
  import opened HookLink
  import opened BridgeSpec
  import opened System
  import opened Orders
  import O = Outbox
  import P = Pump
  import F = FollowerSpec

  // ---- Loads: one answer for each, in order ------------------------------------------

  function LoadsIn(link: seq<Tagged<ToHook>>): seq<(nat, nat)> {
    if link == [] then []
    else if link[0].message.Load? then [(link[0].message.nextStep, link[0].world)] + LoadsIn(link[1..])
    else LoadsIn(link[1..])
  }

  function AnswersIn(back: seq<Tagged<ToAgent>>): seq<(nat, nat)> {
    if back == [] then []
    else if back[0].message.Loaded? then [(back[0].message.nextStep, back[0].world)] + AnswersIn(back[1..])
    else AnswersIn(back[1..])
  }

  lemma {:induction false} LoadsAppend(a: seq<Tagged<ToHook>>, b: seq<Tagged<ToHook>>)
    ensures LoadsIn(a + b) == LoadsIn(a) + LoadsIn(b)
  {
    if a == [] {
      assert a + b == b;
    } else {
      assert (a + b)[0] == a[0] && (a + b)[1..] == a[1..] + b;
      LoadsAppend(a[1..], b);
    }
  }

  lemma {:induction false} AnswersAppend(a: seq<Tagged<ToAgent>>, b: seq<Tagged<ToAgent>>)
    ensures AnswersIn(a + b) == AnswersIn(a) + AnswersIn(b)
  {
    if a == [] {
      assert a + b == b;
    } else {
      assert (a + b)[0] == a[0] && (a + b)[1..] == a[1..] + b;
      AnswersAppend(a[1..], b);
    }
  }

  /** Every message is about the world the last answer before it brought; `from`
      is the one before them all, `to` the one after. */
  ghost predicate Chain(back: seq<Tagged<ToAgent>>, from: nat, to: nat) {
    if back == [] then from == to
    else if back[0].message.Loaded? then Chain(back[1..], back[0].world, to)
    else back[0].world == from && Chain(back[1..], from, to)
  }

  lemma {:induction false} ChainSnoc(back: seq<Tagged<ToAgent>>, from: nat, to: nat, m: Tagged<ToAgent>)
    requires Chain(back, from, to)
    requires m.message.Loaded? || m.world == to
    ensures Chain(back + [m], from, if m.message.Loaded? then m.world else to)
  {
    if back == [] {
      assert back + [m] == [m] && [m][1..] == [];
    } else {
      assert (back + [m])[0] == back[0] && (back + [m])[1..] == back[1..] + [m];
      ChainSnoc(back[1..], if back[0].message.Loaded? then back[0].world else from, to, m);
    }
  }

  lemma {:induction false} NoAnswersNoChange(back: seq<Tagged<ToAgent>>, from: nat, to: nat)
    requires Chain(back, from, to) && AnswersIn(back) == []
    ensures from == to && forall m <- back :: m.world == from && !m.message.Loaded?
  {
    if back != [] {
      NoAnswersNoChange(back[1..], from, to);
    }
  }

  /** Generations rise from one load to the next, from after `least`. */
  ghost predicate Rising(loads: seq<(nat, nat)>, least: nat) {
    loads == [] || (least < loads[0].1 && Rising(loads[1..], loads[0].1))
  }

  function LatestOf(loads: seq<(nat, nat)>, least: nat): nat {
    if loads == [] then least else loads[|loads| - 1].1
  }

  lemma {:induction false} RisingSnoc(loads: seq<(nat, nat)>, least: nat, l: (nat, nat))
    requires Rising(loads, least) && LatestOf(loads, least) < l.1
    ensures Rising(loads + [l], least)
  {
    if loads == [] {
      assert loads + [l] == [l] && [l][1..] == [];
    } else {
      assert (loads + [l])[0] == loads[0] && (loads + [l])[1..] == loads[1..] + [l];
      RisingSnoc(loads[1..], loads[0].1, l);
    }
  }

  lemma {:induction false} RisingToLatest(loads: seq<(nat, nat)>, least: nat)
    requires Rising(loads, least)
    ensures least <= LatestOf(loads, least)
    ensures forall l <- loads :: least < l.1 <= LatestOf(loads, least)
    ensures loads != [] && loads[0].1 == LatestOf(loads, least) ==> |loads| == 1
  {
    if loads != [] {
      RisingToLatest(loads[1..], loads[0].1);
      if |loads| > 1 {
        assert loads[1..][|loads| - 2] == loads[|loads| - 1];
      }
    }
  }

  function Unanswered(s: Sys): seq<(nat, nat)> {
    AnswersIn(s.held + s.back) + LoadsIn(s.hook.orders) + LoadsIn(s.link)
  }

  ghost predicate NoLoad(messages: seq<ToHook>) { forall m <- messages :: !m.Load? }

  /** The answers still to come are those the bridge waits for, in its order; the
      latest order is the newest of them, or still in the outbox, or read. */
  ghost predicate LoadsInStep(s: Sys) {
    && s.b.sentLoads == Unanswered(s)
    && Rising(s.b.sentLoads, s.answered)
    && LatestOf(s.b.sentLoads, s.answered) <= s.b.loadGeneration
    && Chain(s.held + s.back, s.answered, s.hook.world)
    && match s.b.world
       case Ready => NoLoad(s.b.outbox) && s.b.sentLoads == [] && s.answered == s.b.loadGeneration
       case Fetching(_, _) => NoLoad(s.b.outbox)
       case Loading(step) =>
         if NoLoad(s.b.outbox) then
           s.b.sentLoads != [] && s.b.sentLoads[|s.b.sentLoads| - 1] == (step, s.b.loadGeneration)
         else
           LatestOf(s.b.sentLoads, s.answered) < s.b.loadGeneration && OneLoad(s.b.outbox, step)
  }

  /** One load waits, and names `step`. */
  ghost predicate OneLoad(messages: seq<ToHook>, step: nat) {
    messages != []
    && if messages[0].Load? then messages[0].nextStep == step && NoLoad(messages[1..]) else OneLoad(messages[1..], step)
  }

  lemma {:induction false} OneLoadAppend(a: seq<ToHook>, b: seq<ToHook>, step: nat)
    requires NoLoad(b)
    ensures NoLoad(a + b) <==> NoLoad(a)
    ensures OneLoad(a, step) ==> OneLoad(a + b, step) && !NoLoad(a)
  {
    if a == [] {
      assert a + b == b;
    } else {
      assert (a + b)[0] == a[0] && (a + b)[1..] == a[1..] + b;
      OneLoadAppend(a[1..], b, step);
      assert a[0] in a + b && forall m <- a :: m in a + b;
    }
  }

  lemma {:induction false} OneLoadLast(a: seq<ToHook>, l: ToHook)
    requires NoLoad(a) && l.Load?
    ensures OneLoad(a + [l], l.nextStep) && !NoLoad(a + [l])
  {
    assert (a + [l])[|a|] == l;
    if a == [] {
      assert a + [l] == [l] && [l][1..] == [];
    } else {
      assert (a + [l])[0] == a[0] && (a + [l])[1..] == a[1..] + [l];
      OneLoadLast(a[1..], l);
    }
  }

  lemma {:induction false} OneLoadKept(a: seq<ToHook>, keep: ToHook -> bool, step: nat)
    requires forall m <- a :: m.Load? ==> keep(m)
    ensures NoLoad(O.Keep(a, keep)) <==> NoLoad(a)
    ensures OneLoad(a, step) ==> OneLoad(O.Keep(a, keep), step)
  {
    O.KeepOnly(a, keep);
    if a != [] {
      OneLoadKept(a[1..], keep, step);
      var kept := O.Keep(a, keep);
      if keep(a[0]) {
        assert kept[0] == a[0] && kept[1..] == O.Keep(a[1..], keep);
        assert forall m <- kept :: m == a[0] || m in kept[1..];
      } else {
        assert kept == O.Keep(a[1..], keep);
      }
    }
  }

  // ---- Each step keeps the loads in step -----------------------------------------------

  /** The outbox changed, but not the loads in it. */
  ghost predicate SameLoads(a: seq<ToHook>, b: seq<ToHook>) {
    (NoLoad(a) <==> NoLoad(b)) && forall step :: OneLoad(a, step) ==> OneLoad(b, step)
  }

  lemma Appended(a: seq<ToHook>, b: seq<ToHook>)
    requires NoLoad(b)
    ensures SameLoads(a, a + b)
  {
    forall step ensures OneLoad(a, step) ==> OneLoad(a + b, step) {
      OneLoadAppend(a, b, step);
    }
    OneLoadAppend(a, b, 0);
  }

  lemma KeptThenAppended(a: seq<ToHook>, keep: ToHook -> bool, b: seq<ToHook>)
    requires NoLoad(b) && forall m <- a :: m.Load? ==> keep(m)
    ensures SameLoads(a, O.Keep(a, keep) + b)
  {
    forall step ensures OneLoad(a, step) ==> OneLoad(O.Keep(a, keep) + b, step) {
      OneLoadKept(a, keep, step);
      OneLoadAppend(O.Keep(a, keep), b, step);
    }
    OneLoadKept(a, keep, 0);
    OneLoadAppend(O.Keep(a, keep), b, 0);
  }

  /** Steps that touch neither loads nor the link keep the loads in step. */
  lemma Untouched(s: Sys, t: Sys)
    requires LoadsInStep(s) && SameLoads(s.b.outbox, t.b.outbox)
    requires t.b.world == s.b.world && t.b.sentLoads == s.b.sentLoads && t.b.loadGeneration == s.b.loadGeneration
    requires t.link == s.link && t.hook == s.hook && t.held + t.back == s.held + s.back && t.answered == s.answered
    ensures LoadsInStep(t)
  {
  }

  /** A new load order voids what was sent before it. */
  lemma Reloaded(s: Sys, t: Sys, b: Bridge, file: Option<string>, step: nat)
    requires LoadsInStep(s)
    requires b.sentLoads == s.b.sentLoads && b.loadGeneration == s.b.loadGeneration
    requires OrderLoad(b, file, step) == Ok(t.b)
    requires t.link == s.link && t.hook == s.hook && t.held + t.back == s.held + s.back && t.answered == s.answered
    ensures LoadsInStep(t)
  {
    O.KeepOnly(b.outbox, Stays());
    OneLoadLast(VoidWorld(b).outbox, Load(file, step));
  }

  /** So does a fetch. */
  lemma Refetched(s: Sys, t: Sys, b: Bridge, step: nat)
    requires LoadsInStep(s)
    requires b.sentLoads == s.b.sentLoads && b.loadGeneration == s.b.loadGeneration
    requires FetchWorld(b, true, step) == Ok(t.b)
    requires t.link == s.link && t.hook == s.hook && t.held + t.back == s.held + s.back && t.answered == s.answered
    ensures LoadsInStep(t)
  {
    O.KeepOnly(b.outbox, Stays());
  }

  lemma ContinueKeeps(s: Sys, start: TurnStart, keepsWorlds: bool, intro: nat)
    requires LoadsInStep(s) && OnStream(s.b, start, keepsWorlds, intro).Ok? && Continues(s.b, start)
    ensures LoadsInStep(Streamed(s, start, keepsWorlds, intro))
  {
    Appended(s.b.outbox, [ToHook.Begin(intro)]);
    Untouched(s, Streamed(s, start, keepsWorlds, intro));
  }

  lemma AnewKeeps(s: Sys, start: TurnStart, keepsWorlds: bool, intro: nat)
    requires LoadsInStep(s) && OnStream(s.b, start, keepsWorlds, intro).Ok? && !Continues(s.b, start)
    ensures LoadsInStep(Streamed(s, start, keepsWorlds, intro))
  {
    var t := Streamed(s, start, keepsWorlds, intro);
    var c := if s.b.begun then s.b else s.b.(begun := true, outbox := s.b.outbox + [ToHook.Begin(intro)]);
    var anew := c.(follower := Some(F.New(start)));
    if start.world.Some? {
      Refetched(s, t, anew, start.sealedThrough + 1);
    } else {
      Reloaded(s, t, anew, None, start.sealedThrough + 1);
    }
  }

  lemma FaultKeeps(s: Sys)
    requires LoadsInStep(s)
    ensures LoadsInStep(s.(over := true))
  {
  }

  lemma StreamKeeps(s: Sys, start: TurnStart, keepsWorlds: bool, intro: nat)
    requires LoadsInStep(s)
    ensures LoadsInStep(Streamed(s, start, keepsWorlds, intro))
  {
    if OnStream(s.b, start, keepsWorlds, intro).Err? {
      FaultKeeps(s);
    } else if Continues(s.b, start) {
      ContinueKeeps(s, start, keepsWorlds, intro);
    } else {
      AnewKeeps(s, start, keepsWorlds, intro);
    }
  }

  lemma PutsNoLoad(s: F.State, bytes: nat, due: nat -> Option<nat>, now: nat)
    requires F.Valid(s)
    ensures NoLoad(P.PumpOnce(s, bytes, due, now).put)
  {
    P.PumpRefines(s, bytes, due, now);
  }

  lemma TurnKeeps(s: Sys, turn: Turn)
    requires LoadsInStep(s)
    ensures LoadsInStep(Turned(s, turn))
  {
    var t := Turned(s, turn);
    if OnTurn(s.b, turn).Ok? {
      if t.b.outbox != s.b.outbox {
        Appended(s.b.outbox, [ToHook.Speed(t.b.follower.value.speed)]);
      }
      Untouched(s, t);
    }
  }

  lemma PlayKeeps(s: Sys, due: nat -> Option<nat>, now: nat)
    requires LoadsInStep(s)
    requires s.b.follower.Some? ==> F.Valid(s.b.follower.value)
    ensures LoadsInStep(Played(s, due, now))
  {
    var out := s.b.outbox;
    if s.b.follower.Some? {
      PutsNoLoad(s.b.follower.value, O.Weights(out), due, now);
      Appended(out, P.PumpOnce(s.b.follower.value, O.Weights(out), due, now).put);
    }
    Untouched(s, Played(s, due, now));
  }

  lemma SayKeeps(s: Sys, kind: nat, carried: nat)
    requires LoadsInStep(s)
    ensures LoadsInStep(Telling(s, kind, carried))
  {
    Appended(s.b.outbox, [Other(kind, carried)]);
    Untouched(s, Telling(s, kind, carried));
  }

  lemma ShowKeeps(s: Sys, from: Player, preview: Option<seq<Byte>>)
    requires LoadsInStep(s)
    ensures LoadsInStep(Showed(s, from, preview))
  {
    KeptThenAppended(s.b.outbox, O.NotPreviewOf(from), [ToHook.Preview(from, preview)]);
    Untouched(s, Showed(s, from, preview));
  }

  lemma LobbyKeeps(s: Sys, carried: nat)
    requires LoadsInStep(s)
    ensures LoadsInStep(LobbyTold(s, carried))
  {
    KeptThenAppended(s.b.outbox, NotLobby(), [Lobby(carried)]);
    Untouched(s, LobbyTold(s, carried));
  }

  lemma AwayKeeps(s: Sys, count: nat)
    requires LoadsInStep(s)
    ensures LoadsInStep(KeptAway(s, count))
  {
    var n := if count <= |s.back| then count else |s.back|;
    assert s.held + s.back[..n] + s.back[n..] == s.held + s.back;
    Untouched(s, KeptAway(s, count));
  }

  lemma FetchedKeeps(s: Sys, attempt: nat, file: string)
    requires LoadsInStep(s)
    ensures LoadsInStep(WithSave(s, attempt, file))
  {
    var t := WithSave(s, attempt, file);
    if s.b.world.Fetching? && attempt == s.b.world.attempt && t.b != s.b {
      Reloaded(s, t, s.b, Some(file), s.b.world.nextStep);
    }
  }

  lemma NoLoadSplit(messages: seq<ToHook>)
    requires messages != []
    ensures NoLoad(messages) <==> !messages[0].Load? && NoLoad(messages[1..])
  {
    assert messages == [messages[0]] + messages[1..];
    assert messages[0] in messages && forall m <- messages[1..] :: m in messages;
  }

  /** One more message on the link. */
  lemma Linked(s: Sys, link: seq<Tagged<ToHook>>, m: Tagged<ToHook>)
    requires link == s.link + [m]
    ensures Unanswered(s.(link := link)) == Unanswered(s) + if m.message.Load? then [(m.message.nextStep, m.world)] else []
  {
    LoadsAppend(s.link, [m]);
    assert [m][1..] == [];
    assert LoadsIn([m]) == if m.message.Load? then [(m.message.nextStep, m.world)] else [];
  }

  lemma SendKeeps(s: Sys)
    requires LoadsInStep(s)
    ensures LoadsInStep(SentOut(s))
  {
    if s.b.hookReady && s.b.outbox != [] {
      var m, t := s.b.outbox[0], SentOut(s);
      NoLoadSplit(s.b.outbox);
      Linked(s, t.link, Tagged(m, s.b.loadGeneration));
      assert Unanswered(t) == Unanswered(s.(link := t.link));
      if m.Load? {
        RisingSnoc(s.b.sentLoads, s.answered, (m.nextStep, s.b.loadGeneration));
      } else {
        assert Unanswered(s) + [] == Unanswered(s);
      }
    }
  }

  /** The hook sends a message about the world it plays. */
  lemma HookSays(s: Sys, t: Sys, m: ToAgent)
    requires LoadsInStep(s) && !m.Loaded?
    requires t.b == s.b && t.link == s.link && t.hook.orders == s.hook.orders && t.hook.world == s.hook.world
    requires t.held == s.held && t.back == s.back + [Tagged(m, s.hook.world)] && t.answered == s.answered
    ensures LoadsInStep(t)
  {
    var heard, one := s.held + s.back, [Tagged(m, s.hook.world)];
    assert t.held + t.back == heard + one && one[1..] == [];
    AnswersAppend(heard, one);
    assert AnswersIn(heard) + [] == AnswersIn(heard);
    ChainSnoc(heard, s.answered, s.hook.world, one[0]);
  }

  lemma GreetKeeps(s: Sys)
    requires LoadsInStep(s)
    ensures LoadsInStep(HookGreeted(s))
  {
    if !s.hook.greeted {
      HookSays(s, HookGreeted(s), HookHello);
    }
  }

  lemma TellKeeps(s: Sys, message: ToAgent)
    requires LoadsInStep(s)
    ensures LoadsInStep(HookTold(s, message))
  {
    if HookTold(s, message) != s {
      HookSays(s, HookTold(s, message), message);
    }
  }

  lemma HookReadsKeeps(s: Sys)
    requires LoadsInStep(s)
    ensures LoadsInStep(HookTook(s))
  {
    if s.link != [] {
      var t, m := HookTook(s), s.link[0];
      var one := if m.message.Load? then [(m.message.nextStep, m.world)] else [];
      assert s.link == [m] + t.link;
      assert LoadsIn(s.link) == one + LoadsIn(t.link);
      OrderTaken(s.hook.orders, m);
      Regrouped(AnswersIn(s.held + s.back), LoadsIn(s.hook.orders), one, LoadsIn(t.link));
    }
  }

  lemma OrderTaken(orders: seq<LoadOrder>, m: Tagged<ToHook>)
    ensures m.message.Load? ==> LoadsIn(orders + [m]) == LoadsIn(orders) + [(m.message.nextStep, m.world)]
    ensures !m.message.Load? ==> LoadsIn(orders) == LoadsIn(orders) + []
  {
    if m.message.Load? {
      LoadsAppend(orders, [m]);
      assert [m][1..] == [] && LoadsIn([m]) == [(m.message.nextStep, m.world)];
    }
  }

  lemma Regrouped<T>(a: seq<T>, b: seq<T>, c: seq<T>, d: seq<T>)
    ensures a + b + (c + d) == a + (b + c) + d
  {
  }

  lemma HookLoadsKeeps(s: Sys)
    requires LoadsInStep(s)
    ensures LoadsInStep(HookLoaded(s))
  {
    if s.hook.orders != [] {
      var t, heard := HookLoaded(s), s.held + s.back;
      var order := s.hook.orders[0];
      var one := [Tagged(Loaded(order.message.nextStep), order.world)];
      assert t.held + t.back == heard + one && one[1..] == [];
      AnswersAppend(heard, one);
      ChainSnoc(heard, s.answered, s.hook.world, one[0]);
      assert LoadsIn(s.hook.orders) == [(order.message.nextStep, order.world)] + LoadsIn(t.hook.orders);
      assert Unanswered(t) == Unanswered(s);
    }
  }

  // ---- Hearing the hook -----------------------------------------------------------------

  /** Whatever the bridge took was from the world of the latest load order. */
  ghost predicate TakenLatest(s: Sys) { forall t <- s.taken :: t.from == t.latest }

  /** The answer read next is the oldest load's; when it is the latest order's,
      no other answer is to come. */
  lemma AnswerFits(s: Sys, m: Tagged<ToAgent>)
    requires LoadsInStep(s) && s.held + s.back != [] && m == (s.held + s.back)[0] && m.message.Loaded?
    ensures s.b.sentLoads != [] && s.b.sentLoads[0] == (m.message.nextStep, m.world)
    ensures m.world == s.b.loadGeneration ==>
              |s.b.sentLoads| == 1 && NoLoad(s.b.outbox) && (s.b.world == Loading(m.message.nextStep) || s.b.world.Fetching?)
    ensures m.world != s.b.loadGeneration && s.b.world.Loading? && NoLoad(s.b.outbox) ==> |s.b.sentLoads| > 1
  {
    assert Unanswered(s)[0] == (m.message.nextStep, m.world);
    RisingToLatest(s.b.sentLoads, s.answered);
  }

  lemma RestHeard(s: Sys)
    requires LoadsInStep(s) && s.held + s.back != []
    ensures var heard, t := s.held + s.back, Rest(s);
            && t.held + t.back == heard[1..]
            && Chain(heard[1..], t.answered, s.hook.world)
            && Unanswered(t) == if heard[0].message.Loaded? then Unanswered(s)[1..] else Unanswered(s)
  {
    var heard, t := s.held + s.back, Rest(s);
    assert t.held + t.back == heard[1..];
    var one := if heard[0].message.Loaded? then [(heard[0].message.nextStep, heard[0].world)] else [];
    assert AnswersIn(heard) == one + AnswersIn(heard[1..]);
    assert Unanswered(s) == one + (AnswersIn(heard[1..]) + LoadsIn(s.hook.orders) + LoadsIn(s.link));
  }

  lemma ReadAnswer(s: Sys)
    requires LoadsInStep(s) && s.b.hookReady && s.held + s.back != [] && (s.held + s.back)[0].message.Loaded?
    requires TakenLatest(s)
    ensures var m := (s.held + s.back)[0];
            var t := Take(s, m);
            && LoadsInStep(t) && t.over == s.over && TakenLatest(t)
            && (t.b.world.Ready? <==> s.b.world.Ready? || (m.world == s.b.loadGeneration && s.b.world.Loading?))
  {
    AnswerFits(s, (s.held + s.back)[0]);
    RestHeard(s);
    LatestStays(s.b.sentLoads, s.answered);
  }

  lemma LatestStays(loads: seq<(nat, nat)>, least: nat)
    requires loads != []
    ensures LatestOf(loads[1..], loads[0].1) == LatestOf(loads, least)
  {
    if |loads| > 1 {
      assert loads[1..][|loads| - 2] == loads[|loads| - 1];
    }
  }

  /** A report changes nothing of the loads, and is taken only of a world ready. */
  lemma HearReport(b: Bridge, m: ToAgent)
    requires b.hookReady && !m.Loaded? && !m.HookHello?
    ensures Hear(b, m).Ok?
    ensures var (c, report) := Hear(b, m).value;
            c == b.(progress := c.progress) && (report.Some? ==> b.world.Ready?)
  {
  }

  lemma ReadReport(s: Sys)
    requires LoadsInStep(s) && s.b.hookReady && s.held + s.back != []
    requires !(s.held + s.back)[0].message.Loaded? && !(s.held + s.back)[0].message.HookHello?
    requires TakenLatest(s)
    ensures var t := Take(s, (s.held + s.back)[0]);
            LoadsInStep(t) && t.over == s.over && TakenLatest(t)
  {
    var m := (s.held + s.back)[0];
    HearReport(s.b, m.message);
    RestHeard(s);
    if s.b.world.Ready? {
      NoAnswersNoChange(s.held + s.back, s.answered, s.hook.world);
    }
  }

  lemma ReadHello(s: Sys)
    requires LoadsInStep(s) && !s.b.hookReady && s.held + s.back != [] && (s.held + s.back)[0].message.HookHello?
    ensures var t := Take(s, (s.held + s.back)[0]);
            LoadsInStep(t) && t.over == s.over && t.taken == s.taken
  {
    RestHeard(s);
    HelloLoadsNothing(s.b.outbox);
  }

  /** No message of the hook is ever a fault, and none the bridge takes is of a
      world replaced. */
  lemma ReadKeeps(s: Sys)
    requires LoadsInStep(s) && Greeted(s) && TakenLatest(s)
    ensures LoadsInStep(Listened(s)) && TakenLatest(Listened(s))
    ensures !s.over ==> !Listened(s).over
  {
    var heard := s.held + s.back;
    if heard != [] {
      if heard[0].message.HookHello? {
        assert heard[0] in heard;
        ReadHello(s);
      } else if heard[0].message.Loaded? {
        ReadAnswer(s);
      } else {
        ReadReport(s);
      }
    }
  }

  lemma HelloLoadsNothing(a: seq<ToHook>)
    ensures SameLoads(a, [Hello] + a)
  {
    var b := [Hello] + a;
    assert b[1..] == a && forall m <- a :: m in b;
    assert forall m <- b :: m == Hello || m in a;
  }

  // ---- The greeting -----------------------------------------------------------------------

  /** The hook greets once, first; before that nothing goes either way, and the
      agent's own hello is the first thing the hook is sent. */
  ghost predicate Greeted(s: Sys) {
    var heard := s.held + s.back;
    if s.b.hookReady then
      s.hook.greeted && (forall m <- heard :: !m.message.HookHello?) && HelloFirst(s.log + s.b.outbox)
    else
      && s.link == [] && s.hook.orders == [] && s.log == []
      && (if s.hook.greeted then heard != [] && heard[0].message.HookHello? && (forall m <- heard[1..] :: !m.message.HookHello?)
          else heard == [])
  }

  ghost predicate HelloFirst(messages: seq<ToHook>) { messages != [] && messages[0].Hello? }

  /** Where a hello was in front, one still is. */
  ghost predicate FrontStays(a: seq<ToHook>, b: seq<ToHook>) { HelloFirst(a) ==> HelloFirst(b) }

  lemma KeepFront(a: seq<ToHook>, keep: ToHook -> bool, more: seq<ToHook>)
    requires keep(Hello)
    ensures FrontStays(a, a + more) && FrontStays(a, O.Keep(a, keep) + more)
  {
  }

  /** A step on the outbox alone keeps the greeting. */
  lemma GreetingStays(s: Sys, t: Sys)
    requires Greeted(s) && FrontStays(s.b.outbox, t.b.outbox)
    requires t.b.hookReady == s.b.hookReady && t.link == s.link && t.hook == s.hook && t.log == s.log
    requires t.held + t.back == s.held + s.back
    ensures Greeted(t)
  {
    if s.b.hookReady && s.log == [] {
      assert s.log + s.b.outbox == s.b.outbox && t.log + t.b.outbox == t.b.outbox;
    }
  }

  lemma StreamFront(b: Bridge, start: TurnStart, keepsWorlds: bool, intro: nat)
    requires OnStream(b, start, keepsWorlds, intro).Ok?
    ensures FrontStays(b.outbox, OnStream(b, start, keepsWorlds, intro).value.outbox)
    ensures OnStream(b, start, keepsWorlds, intro).value.hookReady == b.hookReady
  {
    var nextStep := start.sealedThrough + 1;
    var begun := if b.begun then b.outbox else b.outbox + [ToHook.Begin(intro)];
    KeepFront(b.outbox, Stays(), [ToHook.Begin(intro)]);
    KeepFront(begun, Stays(), [Load(None, nextStep)]);
    KeepFront(begun, Stays(), []);
    assert O.Keep(begun, Stays()) + [] == O.Keep(begun, Stays());
  }

  lemma StreamGreeting(s: Sys, start: TurnStart, keepsWorlds: bool, intro: nat)
    requires Greeted(s)
    ensures Greeted(Streamed(s, start, keepsWorlds, intro))
  {
    if OnStream(s.b, start, keepsWorlds, intro).Ok? {
      StreamFront(s.b, start, keepsWorlds, intro);
      GreetingStays(s, Streamed(s, start, keepsWorlds, intro));
    }
  }

  lemma TurnGreeting(s: Sys, turn: Turn)
    requires Greeted(s)
    ensures Greeted(Turned(s, turn))
  {
    if Turned(s, turn).b != s.b {
      KeepFront(s.b.outbox, NotLobby(), [ToHook.Speed(Turned(s, turn).b.follower.value.speed)]);
    }
    GreetingStays(s, Turned(s, turn));
  }

  lemma FetchedGreeting(s: Sys, attempt: nat, file: string)
    requires Greeted(s)
    ensures Greeted(WithSave(s, attempt, file))
  {
    var t := WithSave(s, attempt, file);
    if t.b != s.b {
      KeepFront(s.b.outbox, Stays(), [Load(Some(file), s.b.world.nextStep)]);
      GreetingStays(s, t);
    }
  }

  lemma PlayGreeting(s: Sys, due: nat -> Option<nat>, now: nat)
    requires Greeted(s)
    ensures Greeted(Played(s, due, now))
  {
    if Played(s, due, now).b != s.b {
      KeepFront(s.b.outbox, NotLobby(), P.PumpOnce(s.b.follower.value, O.Weights(s.b.outbox), due, now).put);
    }
    GreetingStays(s, Played(s, due, now));
  }

  lemma TellGreeting(s: Sys, kind: nat, carried: nat, from: Player, preview: Option<seq<Byte>>)
    requires Greeted(s)
    ensures Greeted(Telling(s, kind, carried)) && Greeted(LobbyTold(s, carried)) && Greeted(Showed(s, from, preview))
  {
    KeepFront(s.b.outbox, NotLobby(), [Other(kind, carried)]);
    GreetingStays(s, Telling(s, kind, carried));
    KeepFront(s.b.outbox, NotLobby(), [Lobby(carried)]);
    GreetingStays(s, LobbyTold(s, carried));
    KeepFront(s.b.outbox, O.NotPreviewOf(from), [ToHook.Preview(from, preview)]);
    GreetingStays(s, Showed(s, from, preview));
  }

  lemma AwayGreeting(s: Sys, count: nat)
    requires Greeted(s)
    ensures Greeted(KeptAway(s, count))
  {
    var n := if count <= |s.back| then count else |s.back|;
    assert s.held + s.back[..n] + s.back[n..] == s.held + s.back;
    GreetingStays(s, KeptAway(s, count));
  }

  lemma SendGreeting(s: Sys)
    requires Greeted(s)
    ensures Greeted(SentOut(s))
  {
    var t := SentOut(s);
    if t != s {
      assert t.log + t.b.outbox == s.log + s.b.outbox;
    }
  }

  /** The hook reads a message, which needs a greeting before it. */
  lemma HookReadsGreeting(s: Sys)
    requires Greeted(s)
    ensures Greeted(HookTook(s))
  {
  }

  /** The hook says something after its greeting. */
  lemma HookSaysGreeting(s: Sys, t: Sys, m: Tagged<ToAgent>)
    requires Greeted(s) && s.hook.greeted && !m.message.HookHello?
    requires t.b == s.b && t.link == s.link && t.log == s.log && t.hook.greeted
    requires t.hook.orders == s.hook.orders || s.b.hookReady
    requires t.held + t.back == s.held + s.back + [m]
    ensures Greeted(t)
  {
    var heard := s.held + s.back;
    if !s.b.hookReady {
      assert (heard + [m])[1..] == heard[1..] + [m];
    }
  }

  lemma HelloGreeting(s: Sys)
    requires Greeted(s)
    ensures Greeted(HookGreeted(s))
  {
    var t := HookGreeted(s);
    if t != s {
      assert t.held + t.back == s.held + s.back + [Tagged(HookHello, s.hook.world)];
    }
  }

  lemma LoadedGreeting(s: Sys)
    requires Greeted(s)
    ensures Greeted(HookLoaded(s))
  {
    var t := HookLoaded(s);
    if t != s {
      var m := t.back[|s.back|];
      assert t.held + t.back == s.held + s.back + [m];
      HookSaysGreeting(s, t, m);
    }
  }

  lemma ToldGreeting(s: Sys, message: ToAgent)
    requires Greeted(s)
    ensures Greeted(HookTold(s, message))
  {
    var t := HookTold(s, message);
    if t != s {
      assert t.held + t.back == s.held + s.back + [Tagged(message, s.hook.world)];
      HookSaysGreeting(s, t, Tagged(message, s.hook.world));
    }
  }

  lemma HelloHeard(s: Sys)
    requires Greeted(s) && s.held + s.back != [] && !s.b.hookReady
    ensures Greeted(Take(s, (s.held + s.back)[0]))
  {
    var heard := s.held + s.back;
    var t := Take(s, heard[0]);
    assert Rest(s).held + Rest(s).back == heard[1..];
    assert t.log + t.b.outbox == [Hello] + s.b.outbox;
  }

  lemma ReadGreeting(s: Sys)
    requires Greeted(s) && s.held + s.back != [] && s.b.hookReady
    ensures Greeted(Take(s, (s.held + s.back)[0]))
  {
    var heard := s.held + s.back;
    var t := Take(s, heard[0]);
    assert heard[0] in heard && forall m <- heard[1..] :: m in heard;
    TakeLeaves(s, heard[0]);
  }

  /** What hearing anything but the hello leaves as it was. */
  lemma TakeLeaves(s: Sys, m: Tagged<ToAgent>)
    requires s.held + s.back != [] && m == (s.held + s.back)[0] && s.b.hookReady && !m.message.HookHello?
    ensures var t := Take(s, m);
            && t.b.outbox == s.b.outbox && t.b.hookReady && t.hook == s.hook && t.log == s.log && t.link == s.link
            && (t.over || t.held + t.back == (s.held + s.back)[1..])
  {
    assert Rest(s).held + Rest(s).back == (s.held + s.back)[1..];
  }

  // ---- Every run ---------------------------------------------------------------------------

  ghost predicate Sound(s: Sys) {
    LoadsInStep(s) && Greeted(s) && TakenLatest(s) && FollowerValid(s.b)
  }

  ghost predicate FollowerValid(b: Bridge) { b.follower.Some? ==> F.Valid(b.follower.value) }

  lemma TurnValid(s: Sys, turn: Turn)
    requires FollowerValid(s.b)
    ensures FollowerValid(Turned(s, turn).b)
  {
    if s.b.follower.Some? && F.Accept(s.b.follower.value, turn).Ok? {
      F.AcceptKeepsValid(s.b.follower.value, turn);
    }
  }

  lemma PlayValid(s: Sys, due: nat -> Option<nat>, now: nat)
    requires FollowerValid(s.b)
    ensures FollowerValid(Played(s, due, now).b)
  {
    if s.b.follower.Some? {
      P.PumpRefines(s.b.follower.value, O.Weights(s.b.outbox), due, now);
    }
  }

  lemma OthersValid(s: Sys, step: Step)
    requires FollowerValid(s.b) && !step.TakeTurn? && !step.Play?
    ensures FollowerValid(Next(s, step).b)
  {
  }

  lemma FollowerStays(s: Sys, step: Step)
    requires FollowerValid(s.b) && !s.over
    ensures FollowerValid(Next(s, step).b)
  {
    match step
    case TakeTurn(turn) => TurnValid(s, turn);
    case Play(due, now) => PlayValid(s, due, now);
    case _ => OthersValid(s, step);
  }

  lemma NextInStep(s: Sys, step: Step)
    requires Sound(s) && !s.over
    ensures LoadsInStep(Next(s, step))
  {
    match step
    case Stream(start, keepsWorlds, intro) => StreamKeeps(s, start, keepsWorlds, intro);
    case TakeTurn(turn) => TurnKeeps(s, turn);
    case Fetched(attempt, file) => FetchedKeeps(s, attempt, file);
    case Play(due, now) => PlayKeeps(s, due, now);
    case Say(kind, carried) => SayKeeps(s, kind, carried);
    case Show(from, preview) => ShowKeeps(s, from, preview);
    case LobbyNews(carried) => LobbyKeeps(s, carried);
    case Away(count) => AwayKeeps(s, count);
    case Send => SendKeeps(s);
    case Read => ReadKeeps(s);
    case _ => HookInStep(s, step);
  }

  lemma HookInStep(s: Sys, step: Step)
    requires LoadsInStep(s) && !s.over
    requires step.HookGreets? || step.HookReads? || step.HookLoads? || step.HookTells?
    ensures LoadsInStep(Next(s, step))
  {
    match step
    case HookGreets => GreetKeeps(s);
    case HookReads => HookReadsKeeps(s);
    case HookLoads => HookLoadsKeeps(s);
    case HookTells(message) => TellKeeps(s, message);
  }

  lemma NextGreeted(s: Sys, step: Step)
    requires Greeted(s) && !s.over
    ensures Greeted(Next(s, step))
  {
    match step
    case Stream(start, keepsWorlds, intro) => StreamGreeting(s, start, keepsWorlds, intro);
    case TakeTurn(turn) => TurnGreeting(s, turn);
    case Fetched(attempt, file) => FetchedGreeting(s, attempt, file);
    case Play(due, now) => PlayGreeting(s, due, now);
    case Say(kind, carried) => TellGreeting(s, kind, carried, 0, None);
    case Show(from, preview) => TellGreeting(s, 0, 0, from, preview);
    case LobbyNews(carried) => TellGreeting(s, 0, carried, 0, None);
    case Away(count) => AwayGreeting(s, count);
    case Send => SendGreeting(s);
    case Read => ListenGreeting(s);
    case HookGreets => HelloGreeting(s);
    case HookReads => HookReadsGreeting(s);
    case HookLoads => LoadedGreeting(s);
    case HookTells(message) => ToldGreeting(s, message);
  }

  lemma ListenGreeting(s: Sys)
    requires Greeted(s)
    ensures Greeted(Listened(s))
  {
    if s.held + s.back != [] {
      if s.b.hookReady {
        ReadGreeting(s);
      } else {
        HelloHeard(s);
      }
    }
  }

  lemma NextSound(s: Sys, step: Step)
    requires Sound(s)
    ensures Sound(Next(s, step))
    ensures step.Read? && !s.over ==> !Next(s, step).over
  {
    if !s.over {
      FollowerStays(s, step);
      NextInStep(s, step);
      NextGreeted(s, step);
      if step.Read? {
        ReadKeeps(s);
      } else {
        TakesNothing(s, step);
      }
    }
  }

  lemma TakesNothing(s: Sys, step: Step)
    requires !step.Read?
    ensures Next(s, step).taken == s.taken
  {
  }

  lemma {:induction false} EveryRunSound(run: seq<Sys>, steps: seq<Step>, k: nat)
    requires IsRun(run, steps) && k < |run|
    ensures Sound(run[k])
  {
    if k > 0 {
      EveryRunSound(run, steps, k - 1);
      assert Moved(run, steps, k - 1);
      NextSound(run[k - 1], steps[k - 1]);
    }
  }

  /** In order at every moment until `k`. */
  ghost predicate KeepsInOrder(run: seq<Sys>, steps: seq<Step>, k: nat)
    requires |run| == |steps| + 1 && k < |run|
  {
    (k > 0 ==> KeepsInOrder(run, steps, k - 1)) && InOrder(run[k], Ordered(run, steps, k))
  }

  lemma OneStepInOrder(run: seq<Sys>, steps: seq<Step>, k: nat)
    requires IsRun(run, steps) && 0 < k < |run| && KeepsInOrder(run, steps, k - 1) && FollowerValid(run[k - 1].b)
    ensures KeepsInOrder(run, steps, k)
  {
    assert Moved(run, steps, k - 1);
    NextInOrder(run[k - 1], steps[k - 1], Ordered(run, steps, k - 1));
  }

  lemma {:induction false} AlwaysInOrder(run: seq<Sys>, steps: seq<Step>, k: nat)
    requires IsRun(run, steps) && k < |run|
    ensures KeepsInOrder(run, steps, k)
  {
    if k > 0 {
      AlwaysInOrder(run, steps, k - 1);
      OneStepInOrder(run, steps, k) by {
        EveryRunSound(run, steps, k - 1);
      }
    }
  }

  /** The loads of a run are those its steps ordered. */
  lemma EveryRunInOrder(run: seq<Sys>, steps: seq<Step>, k: nat)
    requires IsRun(run, steps) && k < |run|
    ensures InOrder(run[k], Ordered(run, steps, k))
  {
    AlwaysInOrder(run, steps, k);
  }

  /** Generations number the orders of the run's steps, and each load sent is the order
      its generation names; the outbox holds no load but the latest order. */
  ghost predicate LoadsAreOrders(s: Sys, orders: seq<ToHook>) {
    && |orders| == s.b.loadGeneration
    && SentAsOrdered(LoadsOf(s.log), s.sent, orders)
    && Waits(s.b.outbox, orders)
    && (!NoLoad(s.b.outbox) ==> s.b.world.Loading? && OneLoad(s.b.outbox, s.b.world.nextStep))
  }

  /** The bridge becomes ready only on the answer to the latest order, and then no older
      load is anywhere on its way and the world the hook plays is the one that order
      names, file and step. */
  ghost predicate ReadyByTheLatest(s: Sys, orders: seq<ToHook>) {
    && (!s.b.world.Ready? && Listened(s).b.world.Ready? ==>
          && (s.held + s.back)[0].message.Loaded? && (s.held + s.back)[0].world == |orders|)
    && (s.b.world.Ready? ==>
          && Unanswered(s) == [] && NoLoad(s.b.outbox)
          && s.hook.world == |orders| && s.hook.plays == Latest(orders))
  }

  /** At every moment of every run, however load orders, fetches, sends, answers and
      reports interleave: hearing the hook is never a fault; loads are orders, and only
      the latest makes the bridge ready; and every report the bridge takes comes from
      the world of the order latest at that time. */
  lemma OnlyTheLatestLoadCounts(run: seq<Sys>, steps: seq<Step>, k: nat)
    requires IsRun(run, steps) && k < |run|
    ensures var s, orders := run[k], Ordered(run, steps, k);
            && (!s.over ==> !Listened(s).over)
            && LoadsAreOrders(s, orders) && ReadyByTheLatest(s, orders)
            && (forall t <- s.taken :: t.from == t.latest)
  {
    EveryRunSound(run, steps, k);
    LatestCounts(run[k], Ordered(run, steps, k)) by {
      EveryRunInOrder(run, steps, k);
    }
  }

  lemma LatestCounts(s: Sys, orders: seq<ToHook>)
    requires Sound(s) && InOrder(s, orders)
    ensures !s.over ==> !Listened(s).over
    ensures LoadsAreOrders(s, orders) && ReadyByTheLatest(s, orders)
  {
    ReadKeeps(s);
    ReadyOnAnswer(s);
    ReadyIsTheLatest(s);
  }

  function Latest(orders: seq<ToHook>): Option<ToHook> {
    if orders == [] then None else Some(orders[|orders| - 1])
  }

  lemma ReadyOnAnswer(s: Sys)
    requires Sound(s)
    ensures !s.b.world.Ready? && Listened(s).b.world.Ready? ==>
              (s.held + s.back)[0].message.Loaded? && (s.held + s.back)[0].world == s.b.loadGeneration
  {
    var heard := s.held + s.back;
    if heard != [] && s.b.hookReady && heard[0].message.Loaded? {
      ReadAnswer(s);
    }
  }

  lemma ReadyIsTheLatest(s: Sys)
    requires Sound(s)
    ensures s.b.world.Ready? ==> Unanswered(s) == [] && s.hook.world == s.b.loadGeneration && NoLoad(s.b.outbox)
  {
    if s.b.world.Ready? {
      assert AnswersIn(s.held + s.back) == [];
      NoAnswersNoChange(s.held + s.back, s.answered, s.hook.world);
    }
  }

  /** The first thing the hook is ever sent is the agent's hello. */
  lemma HelloGoesFirst(run: seq<Sys>, steps: seq<Step>, k: nat)
    requires IsRun(run, steps) && k < |run|
    ensures run[k].log != [] ==> run[k].log[0].Hello?
  {
    EveryRunSound(run, steps, k);
    var s := run[k];
    if s.log != [] {
      assert (s.log + s.b.outbox)[0] == s.log[0];
    }
  }
}
