/** What each side is told besides loads and moves: the hook the room's speed, and the
    agent how far the room's world got. */
module Told {
  import opened Protocol
  import opened HookLink
  import opened BridgeSpec
  import opened System
  import F = FollowerSpec
  import L = Loads
  import O = Outbox
  import P = Pump

  // ---- The speed ----

  /** The speed last told in `messages`. */
  function LastSpeed(messages: seq<ToHook>): Option<nat> {
    if messages == [] then None
    else
      var last := messages[|messages| - 1];
      if last.Speed? then Some(last.speed) else LastSpeed(messages[..|messages| - 1])
  }

  lemma {:induction false} LastSpeedAppend(a: seq<ToHook>, b: seq<ToHook>)
    ensures LastSpeed(a + b) == if LastSpeed(b).Some? then LastSpeed(b) else LastSpeed(a)
    decreases |b|
  {
    if b == [] {
      assert a + b == a;
    } else {
      var n := |b| - 1;
      assert (a + b)[..|a + b| - 1] == a + b[..n] && (a + b)[|a + b| - 1] == b[n];
      LastSpeedAppend(a, b[..n]);
    }
  }

  lemma LastSpeedOne(m: ToHook)
    ensures LastSpeed([m]) == if m.Speed? then Some(m.speed) else None
  {
    assert [m][..0] == [];
  }

  lemma {:induction false} NoSpeed(messages: seq<ToHook>)
    requires forall m <- messages :: !m.Speed?
    ensures LastSpeed(messages).None?
  {
    if messages != [] {
      NoSpeed(messages[..|messages| - 1]);
    }
  }

  /** Leaving out other messages leaves the speed last told. */
  lemma {:induction false} LastSpeedKept(messages: seq<ToHook>, keep: ToHook -> bool)
    requires forall m: ToHook :: m.Speed? ==> keep(m)
    ensures LastSpeed(O.Keep(messages, keep)) == LastSpeed(messages)
    decreases |messages|
  {
    if messages != [] {
      var m, rest := messages[0], messages[1..];
      LastSpeedKept(rest, keep);
      LastSpeedOne(m);
      LastSpeedAppend([m], rest);
      LastSpeedAppend([m], O.Keep(rest, keep));
      assert messages == [m] + rest;
    }
  }

  /** The speed last told, or on its way, is the one of the last turn accepted on the
      stream followed. */
  ghost predicate SpeedTold(s: Sys) {
    && LastSpeed(s.log + s.b.outbox) == s.b.speed
    && (s.era.turns != [] ==>
          && s.b.follower.Some? && s.b.follower.value.speed == s.era.turns[|s.era.turns| - 1].speed
          && s.b.speed == Some(s.b.follower.value.speed))
  }

  /** The outbox and the log changed, but nothing of what they tell of the speed. */
  lemma SpeedStays(s: Sys, t: Sys)
    requires SpeedTold(s) && LastSpeed(t.log + t.b.outbox) == LastSpeed(s.log + s.b.outbox) && t.b.speed == s.b.speed
    requires t.era.turns == [] || (t.era == s.era && s.b.follower.Some? && t.b.follower.Some?
                                   && t.b.follower.value.speed == s.b.follower.value.speed)
    ensures SpeedTold(t)
  {
  }

  /** Filtering the outbox and adding messages, none of them of the speed. */
  lemma OutboxTells(log: seq<ToHook>, outbox: seq<ToHook>, keep: ToHook -> bool, more: seq<ToHook>)
    requires (forall m: ToHook :: m.Speed? ==> keep(m)) && forall m <- more :: !m.Speed?
    ensures LastSpeed(log + (O.Keep(outbox, keep) + more)) == LastSpeed(log + outbox)
    ensures LastSpeed(log + (outbox + more)) == LastSpeed(log + outbox)
  {
    NoSpeed(more);
    LastSpeedKept(outbox, keep);
    LastSpeedAppend(O.Keep(outbox, keep), more);
    LastSpeedAppend(outbox, more);
    LastSpeedAppend(log, O.Keep(outbox, keep) + more);
    LastSpeedAppend(log, outbox + more);
    LastSpeedAppend(log, outbox);
  }

  function All(): ToHook -> bool { (m: ToHook) => true }

  /** What a stream leaves in the outbox. */
  lemma StreamLeaves(b: Bridge, start: TurnStart, keepsWorlds: bool, intro: nat)
    requires OnStream(b, start, keepsWorlds, intro).Ok?
    ensures var c := OnStream(b, start, keepsWorlds, intro).value;
            var begun := if b.begun then b.outbox else b.outbox + [ToHook.Begin(intro)];
            && c.speed == b.speed
            && (|| c.outbox == begun || c.outbox == O.Keep(begun, Stays())
                || c.outbox == O.Keep(begun, Stays()) + [Load(None, start.sealedThrough + 1)])
  {
  }

  lemma StreamTells(log: seq<ToHook>, b: Bridge, start: TurnStart, keepsWorlds: bool, intro: nat)
    requires OnStream(b, start, keepsWorlds, intro).Ok?
    ensures LastSpeed(log + OnStream(b, start, keepsWorlds, intro).value.outbox) == LastSpeed(log + b.outbox)
  {
    var begun := if b.begun then b.outbox else b.outbox + [ToHook.Begin(intro)];
    StreamLeaves(b, start, keepsWorlds, intro);
    OutboxTells(log, b.outbox, All(), [ToHook.Begin(intro)]);
    OutboxTells(log, begun, Stays(), [Load(None, start.sealedThrough + 1)]);
    OutboxTells(log, begun, Stays(), []);
    assert O.Keep(begun, Stays()) + [] == O.Keep(begun, Stays());
  }

  lemma ContinuesAtItsSpeed(b: Bridge, start: TurnStart, keepsWorlds: bool, intro: nat)
    requires OnStream(b, start, keepsWorlds, intro).Ok? && Continues(b, start)
    ensures var c := OnStream(b, start, keepsWorlds, intro).value;
            c.follower.Some? && c.follower.value.speed == b.follower.value.speed
  {
  }

  lemma StreamSpeed(s: Sys, start: TurnStart, keepsWorlds: bool, intro: nat)
    requires SpeedTold(s)
    ensures SpeedTold(Streamed(s, start, keepsWorlds, intro))
  {
    if OnStream(s.b, start, keepsWorlds, intro).Ok? {
      StreamTells(s.log, s.b, start, keepsWorlds, intro);
      StreamLeaves(s.b, start, keepsWorlds, intro);
      if Continues(s.b, start) {
        ContinuesAtItsSpeed(s.b, start, keepsWorlds, intro);
      }
      SpeedStays(s, Streamed(s, start, keepsWorlds, intro));
    }
  }

  lemma TurnSpeed(s: Sys, turn: Turn)
    requires SpeedTold(s)
    ensures SpeedTold(Turned(s, turn))
  {
    if s.b.follower.Some? && F.Accept(s.b.follower.value, turn).Ok? {
      var told := ToHook.Speed(turn.speed);
      LastSpeedOne(told);
      Associates(s.log, s.b.outbox, [told]);
      LastSpeedAppend(s.log + s.b.outbox, [told]);
      AcceptTells(s, turn);
    }
  }

  lemma AcceptTells(s: Sys, turn: Turn)
    requires s.b.follower.Some? && F.Accept(s.b.follower.value, turn).Ok?
    ensures var t := Turned(s, turn);
            && t.log == s.log && t.b.speed == Some(turn.speed)
            && t.b.outbox == (if s.b.speed == Some(turn.speed) then s.b.outbox else s.b.outbox + [ToHook.Speed(turn.speed)])
            && t.era.turns == s.era.turns + [turn] && t.b.follower.Some? && t.b.follower.value.speed == turn.speed
  {
  }

  lemma SaveLeaves(s: Sys, attempt: nat, file: string)
    ensures var t := WithSave(s, attempt, file);
            && t.log == s.log && t.era == s.era && t.b.follower == s.b.follower && t.b.speed == s.b.speed
            && (|| t.b.outbox == s.b.outbox
                || (s.b.world.Fetching?
                    && t.b.outbox == O.Keep(s.b.outbox, Stays()) + [Load(Some(file), s.b.world.nextStep)]))
  {
  }

  lemma SaveSpeed(s: Sys, attempt: nat, file: string)
    requires SpeedTold(s)
    ensures SpeedTold(WithSave(s, attempt, file))
  {
    var t := WithSave(s, attempt, file);
    SaveLeaves(s, attempt, file);
    if t.b.outbox != s.b.outbox {
      OutboxTells(s.log, s.b.outbox, Stays(), [Load(Some(file), s.b.world.nextStep)]);
    }
    SpeedStays(s, t);
  }

  lemma PlaySpeed(s: Sys, due: nat -> Option<nat>, now: nat)
    requires SpeedTold(s) && (s.b.follower.Some? ==> F.Valid(s.b.follower.value))
    ensures SpeedTold(Played(s, due, now))
  {
    if s.b.follower.Some? && !s.b.world.Fetching? {
      PumpTells(s.log, s.b.outbox, s.b.follower.value, due, now);
      PumpKeepsSpeed(s.b.follower.value, O.Weights(s.b.outbox), due, now);
    }
    SpeedStays(s, Played(s, due, now));
  }

  lemma PumpTells(log: seq<ToHook>, outbox: seq<ToHook>, f: F.State, due: nat -> Option<nat>, now: nat)
    requires F.Valid(f)
    ensures LastSpeed(log + (outbox + P.PumpOnce(f, O.Weights(outbox), due, now).put)) == LastSpeed(log + outbox)
  {
    P.PumpRefines(f, O.Weights(outbox), due, now);
    OutboxTells(log, outbox, All(), P.PumpOnce(f, O.Weights(outbox), due, now).put);
  }

  lemma PumpKeepsSpeed(f: F.State, bytes: nat, due: nat -> Option<nat>, now: nat)
    ensures P.PumpOnce(f, bytes, due, now).follower.speed == f.speed
  {
    RoundsKeepSpeed(P.Loop(f, [], bytes, None), due, now);
  }

  lemma {:induction false} RoundsKeepSpeed(l: P.Loop, due: nat -> Option<nat>, now: nat)
    ensures P.Rounds(l, due, now).follower.speed == l.now.speed
    decreases P.Left(l.now)
  {
    if P.Round(l, due, now).Some? {
      RoundsKeepSpeed(P.Round(l, due, now).value, due, now);
    }
  }

  lemma SaySpeed(s: Sys, kind: nat, carried: nat)
    requires SpeedTold(s)
    ensures SpeedTold(Telling(s, kind, carried))
  {
    OutboxTells(s.log, s.b.outbox, All(), [Other(kind, carried)]);
    SpeedStays(s, Telling(s, kind, carried));
  }

  lemma ShowSpeed(s: Sys, from: Player, preview: Option<seq<Byte>>)
    requires SpeedTold(s)
    ensures SpeedTold(Showed(s, from, preview))
  {
    OutboxTells(s.log, s.b.outbox, O.NotPreviewOf(from), [ToHook.Preview(from, preview)]);
    SpeedStays(s, Showed(s, from, preview));
  }

  lemma LobbySpeed(s: Sys, carried: nat)
    requires SpeedTold(s)
    ensures SpeedTold(LobbyTold(s, carried))
  {
    OutboxTells(s.log, s.b.outbox, NotLobby(), [Lobby(carried)]);
    SpeedStays(s, LobbyTold(s, carried));
  }

  lemma SendSpeed(s: Sys)
    requires SpeedTold(s)
    ensures SpeedTold(SentOut(s))
  {
    if s.b.hookReady && s.b.outbox != [] {
      assert s.log + s.b.outbox == SentOut(s).log + SentOut(s).b.outbox;
    }
  }

  lemma HelloTells(log: seq<ToHook>, outbox: seq<ToHook>)
    ensures LastSpeed(log + ([Hello] + outbox)) == LastSpeed(log + outbox)
  {
    LastSpeedOne(Hello);
    LastSpeedAppend([Hello], outbox);
    LastSpeedAppend(log, [Hello] + outbox);
    LastSpeedAppend(log, outbox);
  }

  lemma HearLeaves(s: Sys)
    ensures var t := Listened(s);
            && (t.b.outbox == s.b.outbox || t.b.outbox == [Hello] + s.b.outbox)
            && t.log == s.log && t.era == s.era && t.b.follower == s.b.follower && t.b.speed == s.b.speed
  {
  }

  lemma HearSpeed(s: Sys)
    requires SpeedTold(s)
    ensures SpeedTold(Listened(s))
  {
    HelloTells(s.log, s.b.outbox);
    HearLeaves(s);
    SpeedStays(s, Listened(s));
  }

  lemma HookSpeed(s: Sys, step: Step)
    requires SpeedTold(s)
    requires step.Away? || step.HookGreets? || step.HookReads? || step.HookLoads? || step.HookTells?
    ensures SpeedTold(Next(s, step))
  {
  }

  lemma NextSpeed(s: Sys, step: Step)
    requires SpeedTold(s) && (s.b.follower.Some? ==> F.Valid(s.b.follower.value))
    ensures SpeedTold(Next(s, step))
  {
    if s.over {
      return;
    }
    match step
    case Stream(start, keepsWorlds, intro) => StreamSpeed(s, start, keepsWorlds, intro);
    case TakeTurn(turn) => TurnSpeed(s, turn);
    case Fetched(attempt, file) => SaveSpeed(s, attempt, file);
    case Play(due, now) => PlaySpeed(s, due, now);
    case Say(kind, carried) => SaySpeed(s, kind, carried);
    case Show(from, preview) => ShowSpeed(s, from, preview);
    case LobbyNews(carried) => LobbySpeed(s, carried);
    case _ => LinkSpeed(s, step);
  }

  lemma LinkSpeed(s: Sys, step: Step)
    requires SpeedTold(s) && !s.over
    requires step.Send? || step.Read? || step.Away? || step.HookGreets? || step.HookReads? || step.HookLoads? || step.HookTells?
    ensures SpeedTold(Next(s, step))
  {
    match step
    case Send => SendSpeed(s);
    case Read => HearSpeed(s);
    case _ => HookSpeed(s, step);
  }

  /** In every run, the speed last told the hook, or on its way to it, is that of the last
      turn accepted on the stream followed; a speed is told each time it changes. */
  lemma {:induction false} SpeedIsTold(run: seq<Sys>, steps: seq<Step>, k: nat)
    requires IsRun(run, steps) && k < |run|
    ensures SpeedTold(run[k])
  {
    if k > 0 {
      SpeedIsTold(run, steps, k - 1);
      L.EveryRunSound(run, steps, k - 1);
      assert Moved(run, steps, k - 1);
      NextSpeed(run[k - 1], steps[k - 1]);
    }
  }

  // ---- The beginning ----

  function IsBegin(): ToHook -> bool { (m: ToHook) => m.Begin? }

  /** No load comes before the game's beginning. */
  ghost predicate BeginFirst(messages: seq<ToHook>) {
    messages == [] || messages[0].Begin? || (!messages[0].Load? && BeginFirst(messages[1..]))
  }

  function Begins(messages: seq<ToHook>): nat { |O.Keep(messages, IsBegin())| }

  /** The hook is told that the game begins once, before any load. */
  ghost predicate BegunOnce(s: Sys) {
    && BeginFirst(s.log + s.b.outbox) && Begins(s.log + s.b.outbox) == (if s.b.begun then 1 else 0)
    && (s.b.follower.Some? || s.b.world.Fetching? ==> s.b.begun)
  }

  lemma {:induction false} BeginFirstOn(a: seq<ToHook>, more: seq<ToHook>)
    requires BeginFirst(a) && (Begins(a) > 0 || forall m <- more :: !m.Load?)
    ensures BeginFirst(a + more)
  {
    if a == [] {
      assert a + more == more;
      NoLoads(more);
    } else {
      assert (a + more)[0] == a[0] && (a + more)[1..] == a[1..] + more;
      if !a[0].Begin? {
        BeginFirstOn(a[1..], more);
      }
    }
  }

  lemma {:induction false} NoLoads(messages: seq<ToHook>)
    requires forall m <- messages :: !m.Load?
    ensures BeginFirst(messages)
  {
    if messages != [] {
      NoLoads(messages[1..]);
    }
  }

  lemma {:induction false} BeginFirstKept(log: seq<ToHook>, outbox: seq<ToHook>, keep: ToHook -> bool)
    requires BeginFirst(log + outbox) && forall m: ToHook :: m.Begin? ==> keep(m)
    ensures BeginFirst(log + O.Keep(outbox, keep))
    decreases |log| + |outbox|
  {
    if log != [] {
      assert (log + outbox)[1..] == log[1..] + outbox;
      assert (log + O.Keep(outbox, keep))[1..] == log[1..] + O.Keep(outbox, keep);
      if !log[0].Begin? {
        BeginFirstKept(log[1..], outbox, keep);
      }
    } else if outbox != [] {
      assert log + outbox == outbox && log + O.Keep(outbox, keep) == O.Keep(outbox, keep);
      if !outbox[0].Begin? {
        assert [] + outbox[1..] == outbox[1..] && [] + O.Keep(outbox[1..], keep) == O.Keep(outbox[1..], keep);
        BeginFirstKept([], outbox[1..], keep);
      }
    }
  }

  /** Filtering the outbox and adding messages, a beginning not among them. */
  lemma OutboxBegins(log: seq<ToHook>, outbox: seq<ToHook>, keep: ToHook -> bool, more: seq<ToHook>)
    requires BeginFirst(log + outbox) && (forall m: ToHook :: m.Begin? ==> keep(m)) && forall m <- more :: !m.Begin?
    requires Begins(log + outbox) > 0 || forall m <- more :: !m.Load?
    ensures BeginFirst(log + (O.Keep(outbox, keep) + more)) && Begins(log + (O.Keep(outbox, keep) + more)) == Begins(log + outbox)
  {
    var kept := O.Keep(outbox, keep);
    BeginFirstKept(log, outbox, keep);
    BeginsKept(log, outbox, keep);
    BeginFirstOn(log + kept, more);
    Associates(log, kept, more);
    O.KeepAppend(log + kept, more, IsBegin());
    O.KeepOnly(more, IsBegin());
  }

  lemma BeginsKept(log: seq<ToHook>, outbox: seq<ToHook>, keep: ToHook -> bool)
    requires forall m: ToHook :: m.Begin? ==> keep(m)
    ensures Begins(log + O.Keep(outbox, keep)) == Begins(log + outbox)
  {
    O.KeepAppend(log, outbox, IsBegin());
    O.KeepAppend(log, O.Keep(outbox, keep), IsBegin());
    O.KeepCommutes(outbox, keep, IsBegin());
    O.KeepOnly(outbox, IsBegin());
    O.KeepOnly(O.Keep(outbox, IsBegin()), keep);
  }

  lemma OutboxBeginsToo(log: seq<ToHook>, outbox: seq<ToHook>, more: seq<ToHook>)
    requires BeginFirst(log + outbox) && forall m <- more :: !m.Begin? && !m.Load?
    ensures BeginFirst(log + (outbox + more)) && Begins(log + (outbox + more)) == Begins(log + outbox)
  {
    O.KeepOnly(outbox, All());
    OutboxBegins(log, outbox, All(), more);
  }

  /** The game begins. */
  lemma OneBegins(log: seq<ToHook>, outbox: seq<ToHook>, intro: nat)
    requires BeginFirst(log + outbox)
    ensures var begun := outbox + [ToHook.Begin(intro)];
            BeginFirst(log + begun) && Begins(log + begun) == Begins(log + outbox) + 1
  {
    var one := [ToHook.Begin(intro)];
    Associates(log, outbox, one);
    BeginFirstOn(log + outbox, one);
    O.KeepAppend(log + outbox, one, IsBegin());
    assert one[1..] == [] && O.Keep(one, IsBegin()) == one;
  }

  lemma StreamBegins(s: Sys, start: TurnStart, keepsWorlds: bool, intro: nat)
    requires BegunOnce(s)
    ensures BegunOnce(Streamed(s, start, keepsWorlds, intro))
  {
    if OnStream(s.b, start, keepsWorlds, intro).Ok? {
      var begun := if s.b.begun then s.b.outbox else s.b.outbox + [ToHook.Begin(intro)];
      OneBegins(s.log, s.b.outbox, intro);
      OutboxBegins(s.log, begun, Stays(), [Load(None, start.sealedThrough + 1)]);
      OutboxBegins(s.log, begun, Stays(), []);
      assert O.Keep(begun, Stays()) + [] == O.Keep(begun, Stays());
      StreamLeaves(s.b, start, keepsWorlds, intro);
      StreamHasBegun(s.b, start, keepsWorlds, intro);
    }
  }

  lemma StreamHasBegun(b: Bridge, start: TurnStart, keepsWorlds: bool, intro: nat)
    requires OnStream(b, start, keepsWorlds, intro).Ok?
    ensures OnStream(b, start, keepsWorlds, intro).value.begun
  {
  }

  /** A step that only adds to the outbox what neither begins nor loads, or leaves out what
      may be left out. */
  lemma BegunStays(s: Sys, t: Sys)
    requires BegunOnce(s) && t.log == s.log && t.b.begun == s.b.begun
    requires BeginFirst(t.log + t.b.outbox) && Begins(t.log + t.b.outbox) == Begins(s.log + s.b.outbox)
    requires t.b.follower.Some? == s.b.follower.Some? && (t.b.world.Fetching? ==> s.b.world.Fetching?)
    ensures BegunOnce(t)
  {
  }

  lemma SaveBegins(s: Sys, attempt: nat, file: string)
    requires BegunOnce(s)
    ensures BegunOnce(WithSave(s, attempt, file))
  {
    var t := WithSave(s, attempt, file);
    SaveLeaves(s, attempt, file);
    if t.b.outbox != s.b.outbox {
      OutboxBegins(s.log, s.b.outbox, Stays(), [Load(Some(file), s.b.world.nextStep)]);
    }
    BegunStays(s, t);
  }

  lemma TurnBegins(s: Sys, turn: Turn)
    requires BegunOnce(s)
    ensures BegunOnce(Turned(s, turn))
  {
    if s.b.follower.Some? && F.Accept(s.b.follower.value, turn).Ok? {
      OutboxBeginsToo(s.log, s.b.outbox, [ToHook.Speed(turn.speed)]);
      AcceptTells(s, turn);
    }
    BegunStays(s, Turned(s, turn));
  }

  lemma PlayBegins(s: Sys, due: nat -> Option<nat>, now: nat)
    requires BegunOnce(s) && (s.b.follower.Some? ==> F.Valid(s.b.follower.value))
    ensures BegunOnce(Played(s, due, now))
  {
    if s.b.follower.Some? {
      P.PumpRefines(s.b.follower.value, O.Weights(s.b.outbox), due, now);
      OutboxBeginsToo(s.log, s.b.outbox, P.PumpOnce(s.b.follower.value, O.Weights(s.b.outbox), due, now).put);
    }
    BegunStays(s, Played(s, due, now));
  }

  lemma SayBegins(s: Sys, kind: nat, carried: nat)
    requires BegunOnce(s)
    ensures BegunOnce(Telling(s, kind, carried))
  {
    OutboxBeginsToo(s.log, s.b.outbox, [Other(kind, carried)]);
    BegunStays(s, Telling(s, kind, carried));
  }

  lemma ShowBegins(s: Sys, from: Player, preview: Option<seq<Byte>>)
    requires BegunOnce(s)
    ensures BegunOnce(Showed(s, from, preview))
  {
    OutboxBegins(s.log, s.b.outbox, O.NotPreviewOf(from), [ToHook.Preview(from, preview)]);
    BegunStays(s, Showed(s, from, preview));
  }

  lemma LobbyBegins(s: Sys, carried: nat)
    requires BegunOnce(s)
    ensures BegunOnce(LobbyTold(s, carried))
  {
    OutboxBegins(s.log, s.b.outbox, NotLobby(), [Lobby(carried)]);
    BegunStays(s, LobbyTold(s, carried));
  }

  lemma SendBegins(s: Sys)
    requires BegunOnce(s)
    ensures BegunOnce(SentOut(s))
  {
    if s.b.hookReady && s.b.outbox != [] {
      assert s.log + s.b.outbox == SentOut(s).log + SentOut(s).b.outbox;
    }
  }

  lemma {:induction false} HelloBegins(log: seq<ToHook>, outbox: seq<ToHook>)
    requires BeginFirst(log + outbox)
    ensures BeginFirst(log + ([Hello] + outbox)) && Begins(log + ([Hello] + outbox)) == Begins(log + outbox)
  {
    if log == [] {
      assert [] + outbox == outbox && [] + ([Hello] + outbox) == [Hello] + outbox && ([Hello] + outbox)[1..] == outbox;
    } else {
      assert (log + outbox)[1..] == log[1..] + outbox;
      assert (log + ([Hello] + outbox))[1..] == log[1..] + ([Hello] + outbox);
      if !log[0].Begin? {
        HelloBegins(log[1..], outbox);
      }
      HelloCounts(log, outbox);
    }
  }

  lemma HelloCounts(log: seq<ToHook>, outbox: seq<ToHook>)
    ensures Begins(log + ([Hello] + outbox)) == Begins(log + outbox)
  {
    O.KeepAppend(log, [Hello] + outbox, IsBegin());
    O.KeepAppend(log, outbox, IsBegin());
    assert ([Hello] + outbox)[1..] == outbox;
  }

  lemma HearBegins(s: Sys)
    requires BegunOnce(s)
    ensures BegunOnce(Listened(s))
  {
    HelloBegins(s.log, s.b.outbox);
    HearLeaves(s);
    HearHasBegun(s);
    BegunStays(s, Listened(s));
  }

  lemma HearHasBegun(s: Sys)
    ensures Listened(s).b.begun == s.b.begun && (Listened(s).b.world.Fetching? ==> s.b.world.Fetching?)
  {
  }

  lemma NextBegins(s: Sys, step: Step)
    requires BegunOnce(s) && (s.b.follower.Some? ==> F.Valid(s.b.follower.value))
    ensures BegunOnce(Next(s, step))
  {
    if s.over {
      return;
    }
    match step
    case Stream(start, keepsWorlds, intro) => StreamBegins(s, start, keepsWorlds, intro);
    case TakeTurn(turn) => TurnBegins(s, turn);
    case Fetched(attempt, file) => SaveBegins(s, attempt, file);
    case Play(due, now) => PlayBegins(s, due, now);
    case Say(kind, carried) => SayBegins(s, kind, carried);
    case Show(from, preview) => ShowBegins(s, from, preview);
    case LobbyNews(carried) => LobbyBegins(s, carried);
    case _ => LinkBegins(s, step);
  }

  lemma LinkBegins(s: Sys, step: Step)
    requires BegunOnce(s) && !s.over
    requires step.Send? || step.Read? || step.Away? || step.HookGreets? || step.HookReads? || step.HookLoads? || step.HookTells?
    ensures BegunOnce(Next(s, step))
  {
    match step
    case Send => SendBegins(s);
    case Read => HearBegins(s);
    case _ => HookBegins(s, step);
  }

  lemma HookBegins(s: Sys, step: Step)
    requires BegunOnce(s)
    requires step.Away? || step.HookGreets? || step.HookReads? || step.HookLoads? || step.HookTells?
    ensures BegunOnce(Next(s, step))
  {
  }

  /** In every run the hook is told once that the game begins, as soon as a stream was
      taken up, and before any load. */
  lemma {:induction false} GameBeginsOnce(run: seq<Sys>, steps: seq<Step>, k: nat)
    requires IsRun(run, steps) && k < |run|
    ensures BegunOnce(run[k])
  {
    if k > 0 {
      GameBeginsOnce(run, steps, k - 1);
      L.EveryRunSound(run, steps, k - 1);
      assert Moved(run, steps, k - 1);
      NextBegins(run[k - 1], steps[k - 1]);
    }
  }

  // ---- What passes through ----

  function IsOther(): ToHook -> bool { (m: ToHook) => m.Other? }

  function IsLobby(): ToHook -> bool { (m: ToHook) => m.Lobby? }

  /** What a step has the hook told besides, and the lobby's view it shows. */
  function Besides(step: Step): seq<ToHook> { if step.Say? then [ToHook.Other(step.kind, step.carried)] else [] }

  /** All that was to be told besides, before the run's state `k`. */
  function Others(run: seq<Sys>, steps: seq<Step>, k: nat): seq<ToHook>
    requires |run| == |steps| + 1 && k < |run|
  {
    if k == 0 then []
    else Others(run, steps, k - 1) + if run[k - 1].over then [] else Besides(steps[k - 1])
  }

  /** The lobby's view last shown. */
  function LastLobby(run: seq<Sys>, steps: seq<Step>, k: nat): seq<ToHook>
    requires |run| == |steps| + 1 && k < |run|
  {
    if k == 0 then []
    else if steps[k - 1].LobbyNews? && !run[k - 1].over then [Lobby(steps[k - 1].carried)]
    else LastLobby(run, steps, k - 1)
  }

  /** Everything to be told besides is there in order, and only the last view of the lobby
      waits. */
  ghost predicate PassedThrough(s: Sys, others: seq<ToHook>, lobby: seq<ToHook>) {
    && O.Keep(s.log + s.b.outbox, IsOther()) == others
    && (O.Keep(s.b.outbox, IsLobby()) == [] || O.Keep(s.b.outbox, IsLobby()) == lobby) && |lobby| <= 1
  }

  /** The outbox filtered and added to: of messages the filter leaves, those there stay. */
  lemma KeptThrough(log: seq<ToHook>, outbox: seq<ToHook>, keep: ToHook -> bool, more: seq<ToHook>, p: ToHook -> bool)
    requires forall m: ToHook :: p(m) ==> keep(m)
    ensures O.Keep(log + (O.Keep(outbox, keep) + more), p) == O.Keep(log + outbox, p) + O.Keep(more, p)
    ensures O.Keep(O.Keep(outbox, keep) + more, p) == O.Keep(outbox, p) + O.Keep(more, p)
  {
    var kept := O.Keep(outbox, keep);
    O.KeepAppend(log, kept + more, p);
    O.KeepAppend(kept, more, p);
    O.KeepAppend(log, outbox, p);
    O.KeepCommutes(outbox, keep, p);
    O.KeepOnly(outbox, p);
    O.KeepOnly(O.Keep(outbox, p), keep);
    Associates(O.Keep(log, p), O.Keep(outbox, p), O.Keep(more, p));
  }

  lemma NoneOf(more: seq<ToHook>, p: ToHook -> bool)
    requires forall m <- more :: !p(m)
    ensures O.Keep(more, p) == []
  {
    O.KeepOnly(more, p);
  }

  /** A change to the outbox that adds neither and leaves out neither. */
  lemma PassesOn(s: Sys, t: Sys, keep: ToHook -> bool, more: seq<ToHook>, others: seq<ToHook>, lobby: seq<ToHook>)
    requires PassedThrough(s, others, lobby) && t.log == s.log
    requires t.b.outbox == O.Keep(s.b.outbox, keep) + more && forall m <- more :: !m.Other? && !m.Lobby?
    requires forall m: ToHook :: m.Other? || m.Lobby? ==> keep(m)
    ensures PassedThrough(t, others, lobby)
  {
    KeptThrough(s.log, s.b.outbox, keep, more, IsOther());
    KeptThrough(s.log, s.b.outbox, keep, more, IsLobby());
    NoneOf(more, IsOther());
    NoneOf(more, IsLobby());
    assert others + [] == others && O.Keep(s.b.outbox, IsLobby()) + [] == O.Keep(s.b.outbox, IsLobby());
  }

  lemma AddsOn(s: Sys, t: Sys, more: seq<ToHook>, others: seq<ToHook>, lobby: seq<ToHook>)
    requires PassedThrough(s, others, lobby) && t.log == s.log
    requires t.b.outbox == s.b.outbox + more && forall m <- more :: !m.Other? && !m.Lobby?
    ensures PassedThrough(t, others, lobby)
  {
    O.KeepOnly(s.b.outbox, All());
    PassesOn(s, t, All(), more, others, lobby);
  }

  lemma StreamPasses(s: Sys, start: TurnStart, keepsWorlds: bool, intro: nat, others: seq<ToHook>, lobby: seq<ToHook>)
    requires PassedThrough(s, others, lobby)
    ensures PassedThrough(Streamed(s, start, keepsWorlds, intro), others, lobby)
  {
    if OnStream(s.b, start, keepsWorlds, intro).Ok? {
      var begun := if s.b.begun then s.b.outbox else s.b.outbox + [ToHook.Begin(intro)];
      var u, t := s.(b := s.b.(outbox := begun)), Streamed(s, start, keepsWorlds, intro);
      StreamLeaves(s.b, start, keepsWorlds, intro);
      assert s.b.outbox + [] == s.b.outbox && begun + [] == begun;
      AddsOn(s, u, if s.b.begun then [] else [ToHook.Begin(intro)], others, lobby);
      if t.b.outbox == begun {
        AddsOn(u, t, [], others, lobby);
      } else {
        assert O.Keep(begun, Stays()) + [] == O.Keep(begun, Stays());
        PassesOn(u, t, Stays(), if t.b.outbox == O.Keep(begun, Stays()) then [] else [Load(None, start.sealedThrough + 1)],
                 others, lobby);
      }
    }
  }

  lemma SavePasses(s: Sys, attempt: nat, file: string, others: seq<ToHook>, lobby: seq<ToHook>)
    requires PassedThrough(s, others, lobby)
    ensures PassedThrough(WithSave(s, attempt, file), others, lobby)
  {
    var t := WithSave(s, attempt, file);
    SaveLeaves(s, attempt, file);
    assert s.b.outbox + [] == s.b.outbox;
    if t.b.outbox == s.b.outbox {
      AddsOn(s, t, [], others, lobby);
    } else {
      PassesOn(s, t, Stays(), [Load(Some(file), s.b.world.nextStep)], others, lobby);
    }
  }

  lemma PlayPasses(s: Sys, due: nat -> Option<nat>, now: nat, others: seq<ToHook>, lobby: seq<ToHook>)
    requires PassedThrough(s, others, lobby) && (s.b.follower.Some? ==> F.Valid(s.b.follower.value))
    ensures PassedThrough(Played(s, due, now), others, lobby)
  {
    assert s.b.outbox + [] == s.b.outbox;
    if s.b.follower.Some? && !s.b.world.Fetching? {
      P.PumpRefines(s.b.follower.value, O.Weights(s.b.outbox), due, now);
      AddsOn(s, Played(s, due, now), P.PumpOnce(s.b.follower.value, O.Weights(s.b.outbox), due, now).put, others, lobby);
    }
  }

  lemma TurnPasses(s: Sys, turn: Turn, others: seq<ToHook>, lobby: seq<ToHook>)
    requires PassedThrough(s, others, lobby)
    ensures PassedThrough(Turned(s, turn), others, lobby)
  {
    var t := Turned(s, turn);
    assert s.b.outbox + [] == s.b.outbox;
    if s.b.follower.Some? && F.Accept(s.b.follower.value, turn).Ok? {
      AcceptTells(s, turn);
      AddsOn(s, t, if t.b.outbox == s.b.outbox then [] else [ToHook.Speed(turn.speed)], others, lobby);
    }
  }

  lemma SayPasses(s: Sys, kind: nat, carried: nat, others: seq<ToHook>, lobby: seq<ToHook>)
    requires PassedThrough(s, others, lobby)
    ensures PassedThrough(Telling(s, kind, carried), others + [ToHook.Other(kind, carried)], lobby)
  {
    var one := [ToHook.Other(kind, carried)];
    O.KeepOnly(s.b.outbox, All());
    KeptThrough(s.log, s.b.outbox, All(), one, IsOther());
    KeptThrough(s.log, s.b.outbox, All(), one, IsLobby());
    assert one[1..] == [] && O.Keep(one, IsOther()) == one && O.Keep(one, IsLobby()) == [];
    assert O.Keep(s.b.outbox, IsLobby()) + [] == O.Keep(s.b.outbox, IsLobby());
  }

  lemma ShowPasses(s: Sys, from: Player, preview: Option<seq<Byte>>, others: seq<ToHook>, lobby: seq<ToHook>)
    requires PassedThrough(s, others, lobby)
    ensures PassedThrough(Showed(s, from, preview), others, lobby)
  {
    if s.b.begun && s.b.world.Ready? {
      PassesOn(s, Showed(s, from, preview), O.NotPreviewOf(from), [ToHook.Preview(from, preview)], others, lobby);
    }
  }

  lemma LobbyPasses(s: Sys, carried: nat, others: seq<ToHook>, lobby: seq<ToHook>)
    requires PassedThrough(s, others, lobby)
    ensures PassedThrough(LobbyTold(s, carried), others, [Lobby(carried)])
  {
    var one, kept := [Lobby(carried)], O.Keep(s.b.outbox, NotLobby());
    KeptThrough(s.log, s.b.outbox, NotLobby(), one, IsOther());
    NoneOf(one, IsOther());
    O.KeepAppend(kept, one, IsLobby());
    O.KeepOnly(s.b.outbox, NotLobby());
    NoneOf(kept, IsLobby());
    assert one[1..] == [] && O.Keep(one, IsLobby()) == one && others + [] == others && [] + one == one;
  }

  lemma SendPasses(s: Sys, others: seq<ToHook>, lobby: seq<ToHook>)
    requires PassedThrough(s, others, lobby)
    ensures PassedThrough(SentOut(s), others, lobby)
  {
    if s.b.hookReady && s.b.outbox != [] {
      assert s.log + s.b.outbox == SentOut(s).log + SentOut(s).b.outbox;
      assert SentOut(s).b.outbox == s.b.outbox[1..];
    }
  }

  lemma HearPasses(s: Sys, others: seq<ToHook>, lobby: seq<ToHook>)
    requires PassedThrough(s, others, lobby)
    ensures PassedThrough(Listened(s), others, lobby)
  {
    HearLeaves(s);
    O.KeepAppend(s.log, s.b.outbox, IsOther());
    O.KeepAppend(s.log, [Hello] + s.b.outbox, IsOther());
    assert ([Hello] + s.b.outbox)[1..] == s.b.outbox;
  }

  lemma HookPasses(s: Sys, step: Step, others: seq<ToHook>, lobby: seq<ToHook>)
    requires PassedThrough(s, others, lobby)
    requires step.Away? || step.HookGreets? || step.HookReads? || step.HookLoads? || step.HookTells?
    ensures PassedThrough(Next(s, step), others, lobby)
  {
  }

  lemma NextPasses(s: Sys, step: Step, others: seq<ToHook>, lobby: seq<ToHook>)
    requires PassedThrough(s, others, lobby) && !s.over && (s.b.follower.Some? ==> F.Valid(s.b.follower.value))
    ensures PassedThrough(Next(s, step), others + Besides(step), if step.LobbyNews? then [Lobby(step.carried)] else lobby)
  {
    assert others + [] == others;
    match step
    case Stream(start, keepsWorlds, intro) => StreamPasses(s, start, keepsWorlds, intro, others, lobby);
    case TakeTurn(turn) => TurnPasses(s, turn, others, lobby);
    case Fetched(attempt, file) => SavePasses(s, attempt, file, others, lobby);
    case Play(due, now) => PlayPasses(s, due, now, others, lobby);
    case Say(kind, carried) => SayPasses(s, kind, carried, others, lobby);
    case Show(from, preview) => ShowPasses(s, from, preview, others, lobby);
    case LobbyNews(carried) => LobbyPasses(s, carried, others, lobby);
    case Send => SendPasses(s, others, lobby);
    case Read => HearPasses(s, others, lobby);
    case _ => HookPasses(s, step, others, lobby);
  }

  /** In every run, whatever loads and fetches replace the game's world: all that is to be
      told the hook besides reaches it, in order, none lost or repeated; and of the lobby's
      views only the last waits. */
  lemma {:induction false} NothingElseIsLost(run: seq<Sys>, steps: seq<Step>, k: nat)
    requires IsRun(run, steps) && k < |run|
    ensures PassedThrough(run[k], Others(run, steps, k), LastLobby(run, steps, k))
  {
    if k > 0 {
      NothingElseIsLost(run, steps, k - 1);
      L.EveryRunSound(run, steps, k - 1);
      assert Moved(run, steps, k - 1);
      var others := Others(run, steps, k - 1);
      if run[k - 1].over {
        assert others + [] == others;
      } else {
        NextPasses(run[k - 1], steps[k - 1], others, LastLobby(run, steps, k - 1));
      }
    }
  }

  // ---- How far a call goes ----

  /** In every run, a call to play tells the hook all it may: it stops only because the
      outbox is full, because the next step is not due, or because nothing is owed; and it
      plays on whenever a world is there or ordered. */
  lemma PlaysAllItMay(run: seq<Sys>, steps: seq<Step>, k: nat, due: nat -> Option<nat>, now: nat)
    requires IsRun(run, steps) && k < |run| && run[k].b.follower.Some? && !run[k].b.world.Fetching?
    ensures PlaysOn(run[k].b, PumpNow(run[k].b, due, now), due, now)
  {
    PumpGoesFar(run[k].b, due, now) by {
      L.EveryRunSound(run, steps, k);
    }
  }

  /** What is put is what the follower hands out, and why it stops there. */
  ghost predicate PlaysOn(b: Bridge, c: Bridge, due: nat -> Option<nat>, now: nat)
    requires b.follower.Some?
  {
    && c.follower.Some?
    && (|| O.OUTBOX_BYTES <= O.Weights(c.outbox)
        || F.Drain(c.follower.value) == []
        || NotDue(F.NextStep(c.follower.value), due, now))
    && exists put :: c.outbox == b.outbox + put && P.Pumped(b.follower.value, c.follower.value, put)
  }

  predicate NotDue(step: Option<nat>, due: nat -> Option<nat>, now: nat) {
    step.Some? && due(step.value).Some? && now < due(step.value).value
  }

  lemma PumpGoesFar(b: Bridge, due: nat -> Option<nat>, now: nat)
    requires b.follower.Some? && !b.world.Fetching? && F.Valid(b.follower.value)
    ensures PlaysOn(b, PumpNow(b, due, now), due, now)
  {
    var f, outbox := b.follower.value, b.outbox;
    var r := P.PumpOnce(f, O.Weights(outbox), due, now);
    P.PumpRefines(f, O.Weights(outbox), due, now);
    P.StopsForAReason(P.Loop(f, [], O.Weights(outbox), None), due, now);
    assert outbox + [] == outbox;
    P.RoundsCount(P.Loop(f, [], O.Weights(outbox), None), outbox, due, now);
    assert P.Pumped(f, r.follower, r.put);
  }

  // ---- What the bridge takes of its game ----

  /** What a message says of the room's world, when it is about that. */
  function Says(m: ToAgent): Option<Report> {
    match m
    case Loaded(nextStep) => Some(Progress(if nextStep == 0 then 0 else nextStep - 1))
    case Ran(step) => Some(Progress(step))
    case Checkpoint(step) => Some(Digests(step))
    case _ => None
  }

  /** How far the reports taken say the world got. */
  function LastProgress(taken: seq<Taken>): Option<nat> {
    if taken == [] then None
    else
      var last := taken[|taken| - 1].report;
      if last.Progress? then Some(last.step) else LastProgress(taken[..|taken| - 1])
  }

  /** Every report says what was heard; a game's progress is what its last report says, and
      is none while a world is on its way. */
  ghost predicate Reports(s: Sys) {
    && (forall t <- s.taken :: Says(t.heard) == Some(t.report))
    && (if s.b.world.Ready? then s.b.progress == LastProgress(s.taken) else s.b.progress.None?)
    && (s.b.loaded <==> s.b.world.Ready? && s.b.loadGeneration > 0)
  }

  lemma ReportMore(taken: seq<Taken>, t: Taken)
    ensures LastProgress(taken + [t]) == if t.report.Progress? then Some(t.report.step) else LastProgress(taken)
  {
    assert (taken + [t])[..|taken|] == taken;
  }

  /** What hearing a message leaves of the progress kept. */
  lemma HearSays(b: Bridge, m: ToAgent)
    requires Hear(b, m).Ok?
    ensures var (c, report) := Hear(b, m).value;
            && c.loadGeneration == b.loadGeneration && (report.Some? ==> Says(m) == report && c.world.Ready?)
            && c.progress == (if report.Some? && report.value.Progress? then Some(report.value.step) else b.progress)
            && (if c.world == b.world then c.loaded == b.loaded || (m.Loaded? && c.loaded)
                else b.world.Loading? && c.world.Ready? && c.loaded && report.Some? && report.value.Progress?)
            && (m.Loaded? && report.Some? ==> b.world.Loading?)
  {
  }

  lemma HearReports(s: Sys)
    requires Reports(s) && (s.b.world.Loading? ==> s.b.loadGeneration > 0)
    ensures Reports(Listened(s))
  {
    var heard := s.held + s.back;
    if heard != [] && Hear(s.b, heard[0].message).Ok? {
      var (c, report) := Hear(s.b, heard[0].message).value;
      HearSays(s.b, heard[0].message);
      if report.Some? {
        var taken := Taken(report.value, heard[0].message, heard[0].world, s.b.loadGeneration);
        ReportMore(s.taken, taken);
        assert Listened(s).taken == s.taken + [taken];
      } else {
        assert Listened(s).taken == s.taken;
      }
    }
  }

  /** No other step takes a report, and one that replaces the world forgets its progress. */
  lemma OthersReport(s: Sys, step: Step)
    requires Reports(s) && !step.Read?
    ensures Reports(Next(s, step))
  {
    if !s.over && step.Stream? {
      StreamReports(s, step.start, step.keepsWorlds, step.intro);
    } else if !s.over && step.Fetched? {
      SaveReports(s, step.attempt, step.file);
    } else {
      Unreported(s, step);
    }
  }

  lemma StreamReports(s: Sys, start: TurnStart, keepsWorlds: bool, intro: nat)
    requires Reports(s)
    ensures Reports(Streamed(s, start, keepsWorlds, intro))
  {
  }

  lemma SaveReports(s: Sys, attempt: nat, file: string)
    requires Reports(s)
    ensures Reports(WithSave(s, attempt, file))
  {
  }

  lemma Unreported(s: Sys, step: Step)
    requires s.over || (!step.Stream? && !step.Fetched? && !step.Read?)
    ensures var t := Next(s, step);
            && t.taken == s.taken && t.b.world == s.b.world && t.b.progress == s.b.progress && t.b.loaded == s.b.loaded
            && t.b.loadGeneration == s.b.loadGeneration
  {
  }

  lemma LoadingIsOrdered(s: Sys)
    requires L.LoadsInStep(s)
    ensures s.b.world.Loading? ==> s.b.loadGeneration > 0
  {
    L.RisingToLatest(s.b.sentLoads, s.answered);
  }

  /** In every run: what the bridge takes for a report is what the hook said, and while the
      world is ready the progress kept is the last one reported of it. */
  lemma {:induction false} ReportsAreWhatWasSaid(run: seq<Sys>, steps: seq<Step>, k: nat)
    requires IsRun(run, steps) && k < |run|
    ensures Reports(run[k])
  {
    if k > 0 {
      var s, step := run[k - 1], steps[k - 1];
      ReportsAreWhatWasSaid(run, steps, k - 1);
      assert Moved(run, steps, k - 1);
      if step.Read? && !s.over {
        LoadingIsOrdered(s) by {
          L.EveryRunSound(run, steps, k - 1);
        }
        HearReports(s);
      } else if !s.over {
        OthersReport(s, step);
      }
    }
  }

  /** And in every run each message of a ready world is taken, in order, and none of
      another's. */
  lemma EveryReportIsTaken(run: seq<Sys>, steps: seq<Step>, k: nat)
    requires IsRun(run, steps) && k < |run| && !run[k].over && run[k].held + run[k].back != []
    ensures var s := run[k];
            var m := (s.held + s.back)[0];
            m.message.Ran? || m.message.Checkpoint? ==>
              Listened(s).taken == if s.b.world.Ready? then
                                     s.taken + [Taken(Says(m.message).value, m.message, m.world, s.b.loadGeneration)]
                                   else s.taken
  {
    L.EveryRunSound(run, steps, k);
  }
}
