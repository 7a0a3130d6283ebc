/** Replacing the game's world, on values (crates/tpf3mp-agent/src/bridge.rs):
    what the bridge does with a turn stream, a turn, a fetched save, a message
    from the hook, and a link that takes a message. */
module BridgeSpec {
  import opened Protocol
  import opened HookLink
  import F = FollowerSpec
  import O = Outbox
  import P = Pump

  const MAX_PATH: nat := 1024

  datatype Fault =
    | Unexpected(what: string)
    | LoadedElsewhere(expected: nat, got: nat)
    | Follow(why: F.FollowError)
    | NoWorlds
    | PathTooLong

  /** Whether the game's world can follow turns, and if not, what it waits for. */
  datatype World = Ready | Fetching(nextStep: nat, attempt: nat) | Loading(nextStep: nat)

  /** `sentLoads` holds, for every load sent and not yet answered, the step it
      named and the generation it was ordered under, oldest first. */
  datatype Bridge = Bridge(follower: Option<F.State>, outbox: seq<ToHook>, hookReady: bool, begun: bool,
                           world: World, sentLoads: seq<(nat, nat)>, loadGeneration: nat, loaded: bool,
                           speed: Option<nat>, progress: Option<nat>, attempts: nat)

  const FRESH := Bridge(None, [], false, false, Ready, [], 0, false, None, None, 0)

  function Stays(): ToHook -> bool { (m: ToHook) => !Moves(m) }

  /** The present world is void: nothing queued may still move it, and its progress
      counts no more. */
  function VoidWorld(b: Bridge): Bridge {
    b.(outbox := O.Keep(b.outbox, Stays()), progress := None, loaded := false)
  }

  /** A new generation, whose world begins at `nextStep`: the latest saved, or the
      first when there is no file. */
  function OrderLoad(b: Bridge, file: Option<string>, nextStep: nat): Result<Bridge, Fault> {
    if file.Some? && |file.value| > MAX_PATH then Err(PathTooLong)
    else
      var v := VoidWorld(b);
      Ok(v.(loadGeneration := b.loadGeneration + 1, outbox := v.outbox + [Load(file, nextStep)],
            world := Loading(nextStep)))
  }

  /** A new attempt at a save to load; earlier attempts count no more. */
  function FetchWorld(b: Bridge, keepsWorlds: bool, nextStep: nat): Result<Bridge, Fault> {
    if !keepsWorlds then Err(NoWorlds)
    else Ok(VoidWorld(b).(attempts := b.attempts + 1, world := Fetching(nextStep, b.attempts + 1)))
  }

  /** A turn stream takes effect. `intro` is what a game that begins is told. */
  function OnStream(b: Bridge, start: TurnStart, keepsWorlds: bool, intro: nat): Result<Bridge, Fault> {
    var c := if b.begun then b else b.(begun := true, outbox := b.outbox + [ToHook.Begin(intro)]);
    var nextStep := start.sealedThrough + 1;
    var anew := c.(follower := Some(F.New(start)));
    if start.world.Some? then FetchWorld(anew, keepsWorlds, nextStep)
    else if c.follower.None? then OrderLoad(anew, None, nextStep)
    else GoOn(c, start)
  }

  /** A stream for a game the bridge follows already. */
  function GoOn(b: Bridge, start: TurnStart): Result<Bridge, Fault>
    requires b.follower.Some?
  {
    match F.Restart(b.follower.value, start)
    case Ok(s) => Ok(b.(follower := Some(s)))
    case Err(why) =>
      // The server replays the whole log, so a fresh follower takes over.
      if start.nextEvent == 1 && start.sealedThrough == 0 then
        OrderLoad(b.(follower := Some(F.New(start))), None, start.sealedThrough + 1)
      else Err(Follow(why))
  }

  function OnTurn(b: Bridge, turn: Turn): Result<Bridge, Fault> {
    if b.follower.None? then Err(Unexpected("a turn before its stream"))
    else
      match F.Accept(b.follower.value, turn)
      case Err(why) => Err(Follow(why))
      case Ok(s) =>
        var c := b.(follower := Some(s));
        if b.speed == Some(s.speed) then Ok(c)
        else Ok(c.(speed := Some(s.speed), outbox := b.outbox + [ToHook.Speed(s.speed)]))
  }

  /** The save to load is here, under `attempt`; one for a stream replaced since
      changes nothing. */
  function OnFetched(b: Bridge, attempt: nat, file: string): Result<Bridge, Fault> {
    if b.world.Fetching? && attempt == b.world.attempt then OrderLoad(b, Some(file), b.world.nextStep) else Ok(b)
  }

  /** Pumps only into a world that is there or ordered. */
  function PumpNow(b: Bridge, due: nat -> Option<nat>, now: nat): Bridge {
    if b.world.Fetching? || b.follower.None? then b
    else
      var r := P.PumpOnce(b.follower.value, O.Weights(b.outbox), due, now);
      b.(follower := Some(r.follower), outbox := b.outbox + r.put)
  }

  /** The oldest sent load is answered; whether it is the one the bridge waits for. */
  function CurrentLoadAck(b: Bridge, nextStep: nat): Result<(Bridge, bool), Fault> {
    if b.sentLoads == [] then Err(Unexpected("a world nobody ordered"))
    else
      var (expected, generation) := b.sentLoads[0];
      if nextStep != expected then Err(LoadedElsewhere(expected, nextStep))
      else Ok((b.(sentLoads := b.sentLoads[1..]), generation == b.loadGeneration && b.world == Loading(nextStep)))
  }

  /** What the bridge takes a hook's message for: how far the room's world got, or
      its digests at a checkpoint. */
  datatype Report = Progress(step: nat) | Digests(step: nat)

  /** One message of the hook. */
  function Hear(b: Bridge, m: ToAgent): Result<(Bridge, Option<Report>), Fault> {
    if !b.hookReady && !m.HookHello? then Err(Unexpected("a message before its hello"))
    else
      match m
      case HookHello =>
        if b.hookReady then Err(Unexpected("a second hello"))
        else Ok((b.(hookReady := true, outbox := [Hello] + b.outbox), None))
      case Loaded(nextStep) =>
        (match CurrentLoadAck(b, nextStep)
         case Err(fault) => Err(fault)
         case Ok((c, false)) => Ok((c, None))
         case Ok((c, true)) =>
           var progress := if nextStep == 0 then 0 else nextStep - 1;
           Ok((c.(world := Ready, progress := Some(progress), loaded := true), Some(Progress(progress)))))
      case Ran(step) =>
        // Only a ready world's reports are about the room's game.
        Ok(if b.world.Ready? then (b.(progress := Some(step)), Some(Progress(step))) else (b, None))
      case Checkpoint(step) => Ok((b, if b.world.Ready? then Some(Digests(step)) else None))
      case Said(_) => Ok((b, None))
  }

  /** The oldest message leaves, once the hook has greeted. */
  function SendOne(b: Bridge): Bridge {
    if !b.hookReady || b.outbox == [] then b
    else
      var m := b.outbox[0];
      b.(outbox := b.outbox[1..],
         sentLoads := if m.Load? then b.sentLoads + [(m.nextStep, b.loadGeneration)] else b.sentLoads)
  }

  /** The link takes `room` messages and then no more. */
  function Flush(b: Bridge, room: nat): Bridge
    decreases room
  {
    if room == 0 || !b.hookReady || b.outbox == [] then b else Flush(SendOne(b), room - 1)
  }

  lemma FlushGoesOn(b: Bridge, room: nat)
    requires 0 < room && b.hookReady && b.outbox != []
    ensures Flush(b, room) == Flush(SendOne(b), room - 1) && SendOne(b).outbox == b.outbox[1..]
  {
  }

  /** The follower's resume point; none without a follower, or without the save its
      stream needs. */
  function ResumePoint(b: Bridge): Option<F.Resume> {
    if b.world.Fetching? || b.follower.None? then None else Some(F.ResumePoint(b.follower.value))
  }

  // ---- Faults, and how much is sent ----

  /** What the hook may not say: anything before its hello, a second one, and an answer to
      no load or to another than the oldest one sent. */
  lemma HearFaultsExactlyWhen(b: Bridge, m: ToAgent)
    ensures Hear(b, m).Err? <==>
              || b.hookReady == m.HookHello?
              || (m.Loaded? && (b.sentLoads == [] || b.sentLoads[0].0 != m.nextStep))
  {
  }

  /** A stream is refused exactly when it starts from a save where no worlds are kept, or
      neither continues what is followed nor replays it whole; and a fetched save exactly
      when it is the one waited for and its path is too long. */
  lemma StreamFaultsExactlyWhen(b: Bridge, start: TurnStart, keepsWorlds: bool, intro: nat, attempt: nat, file: string)
    ensures OnStream(b, start, keepsWorlds, intro).Err? <==>
              if start.world.Some? then !keepsWorlds
              else
                && b.follower.Some? && F.Restart(b.follower.value, start).Err?
                && (start.nextEvent != 1 || start.sealedThrough != 0)
    ensures OnFetched(b, attempt, file).Err? <==> b.world.Fetching? && attempt == b.world.attempt && |file| > MAX_PATH
  {
  }

  /** The bridge as its first `sent` messages have left, their loads noted. */
  function Sent(b: Bridge, sent: nat): Bridge
    requires sent <= |b.outbox|
  {
    b.(outbox := b.outbox[sent..], sentLoads := b.sentLoads + LoadsAmong(b.outbox[..sent], b.loadGeneration))
  }

  lemma NoneSent(b: Bridge)
    ensures Sent(b, 0) == b
  {
    assert b.outbox[0..] == b.outbox && b.outbox[..0] == [] && LoadsAmong([], b.loadGeneration) == [];
    assert b.sentLoads + [] == b.sentLoads;
  }

  lemma OneSent(b: Bridge, sent: nat)
    requires b.hookReady && 0 < sent <= |b.outbox|
    ensures SendOne(b).outbox == b.outbox[1..] && Sent(SendOne(b), sent - 1) == Sent(b, sent)
  {
    var c := SendOne(b);
    assert b.outbox[..sent][0] == b.outbox[0] && b.outbox[..sent][1..] == c.outbox[..sent - 1];
    assert c.outbox[sent - 1..] == b.outbox[sent..];
    assert c.sentLoads + LoadsAmong(c.outbox[..sent - 1], b.loadGeneration)
        == b.sentLoads + LoadsAmong(b.outbox[..sent], b.loadGeneration);
  }

  /** As many messages leave as there is room for, the oldest first, and nothing else
      changes but that their loads are noted. */
  lemma {:induction false} FlushSends(b: Bridge, room: nat)
    requires b.hookReady
    ensures Flush(b, room) == Sent(b, if room < |b.outbox| then room else |b.outbox|)
    decreases room
  {
    if room == 0 || b.outbox == [] {
      NoneSent(b);
    } else {
      OneSent(b, if room < |b.outbox| then room else |b.outbox|);
      FlushSends(SendOne(b), room - 1);
    }
  }

  /** The loads among these messages, each with the generation it leaves under. */
  function LoadsAmong(messages: seq<ToHook>, generation: nat): seq<(nat, nat)> {
    if messages == [] then []
    else (if messages[0].Load? then [(messages[0].nextStep, generation)] else []) + LoadsAmong(messages[1..], generation)
  }
}
