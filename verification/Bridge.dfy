/** The bridge itself, updated in place: each method is its function in
    `BridgeSpec`. */
module Bridge {
  import opened Protocol
  import opened HookLink
  import opened Outbox
  import opened Follower
  import F = FollowerSpec
  import P = Pump
  import Spec = BridgeSpec

  class Coupling {
    var follower: TurnFollower?
    const outbox: Box
    var hookReady: bool
    var begun: bool
    var world: Spec.World
    var sentLoads: seq<(nat, nat)>
    var loadGeneration: nat
    var loaded: bool
    var speed: Option<nat>
    var progress: Option<nat>
    var attempts: nat

    ghost function Repr(): set<object>
      reads this
    {
      {this, outbox} + (if follower == null then {} else {follower})
    }

    ghost function Followed(): Option<F.State>
      reads Repr()
    {
      if follower == null then None else Some(follower.Abs())
    }

    ghost function Abs(): Spec.Bridge
      reads Repr()
    {
      Spec.Bridge(Followed(), outbox.messages, hookReady, begun, world, sentLoads, loadGeneration, loaded,
                  speed, progress, attempts)
    }

    constructor ()
      ensures outbox.Valid() && Abs() == Spec.FRESH && fresh(Repr())
    {
      outbox := new Box();
      follower := null;
      hookReady, begun, world, sentLoads, loadGeneration, loaded := false, false, Spec.Ready, [], 0, false;
      speed, progress, attempts := None, None, 0;
    }

    method VoidWorld()
      requires outbox.Valid()
      modifies outbox, `progress, `loaded
      ensures outbox.Valid() && Abs() == Spec.VoidWorld(old(Abs()))
    {
      outbox.Retain(Spec.Stays());
      progress, loaded := None, false;
    }

    method OrderLoad(file: Option<string>, nextStep: nat) returns (r: Result<(), Spec.Fault>)
      requires outbox.Valid()
      modifies this, outbox
      ensures outbox.Valid() && follower == old(follower)
      ensures match Spec.OrderLoad(old(Abs()), file, nextStep)
              case Ok(b) => r.Ok? && Abs() == b
              case Err(fault) => r == Err(fault) && Abs() == old(Abs())
    {
      if file.Some? && |file.value| > Spec.MAX_PATH {
        return Err(Spec.PathTooLong);
      }
      VoidWorld();
      loadGeneration := loadGeneration + 1;
      outbox.PushBack(Load(file, nextStep));
      world := Spec.Loading(nextStep);
      return Ok(());
    }

    method FetchWorld(keepsWorlds: bool, nextStep: nat) returns (r: Result<(), Spec.Fault>)
      requires outbox.Valid()
      modifies this, outbox
      ensures outbox.Valid() && follower == old(follower)
      ensures match Spec.FetchWorld(old(Abs()), keepsWorlds, nextStep)
              case Ok(b) => r.Ok? && Abs() == b
              case Err(fault) => r == Err(fault) && Abs() == old(Abs())
    {
      if !keepsWorlds {
        return Err(Spec.NoWorlds);
      }
      VoidWorld();
      attempts := attempts + 1;
      world := Spec.Fetching(nextStep, attempts);
      return Ok(());
    }

    /** A fault ends the session; what the bridge then holds is not used again. */
    method OnStream(start: TurnStart, keepsWorlds: bool, intro: nat) returns (r: Result<(), Spec.Fault>)
      requires outbox.Valid()
      modifies Repr()
      ensures outbox.Valid() && fresh(Repr() - old(Repr()))
      ensures match Spec.OnStream(old(Abs()), start, keepsWorlds, intro)
              case Ok(b) => r.Ok? && Abs() == b
              case Err(fault) => r == Err(fault)
    {
      BeginGame(intro);
      var nextStep := start.sealedThrough + 1;
      if start.world.Some? {
        follower := new TurnFollower(start);
        r := FetchWorld(keepsWorlds, nextStep);
      } else if follower == null {
        r := StartOver(start);
      } else {
        r := GoOn(start);
      }
    }

    /** A stream for a game the bridge follows already. */
    method GoOn(start: TurnStart) returns (r: Result<(), Spec.Fault>)
      requires outbox.Valid() && follower != null
      modifies Repr()
      ensures outbox.Valid() && fresh(Repr() - old(Repr()))
      ensures match Spec.GoOn(old(Abs()), start)
              case Ok(b) => r.Ok? && Abs() == b
              case Err(fault) => r == Err(fault)
    {
      var again := follower.Restart(start);
      if again.Ok? {
        return Ok(());
      }
      // The server replays the whole log, so a fresh follower takes over.
      if start.nextEvent == 1 && start.sealedThrough == 0 {
        r := StartOver(start);
      } else {
        return Err(Spec.Follow(again.error));
      }
    }

    /** Tells the hook that the game begins, once. */
    method BeginGame(intro: nat)
      requires outbox.Valid()
      modifies `begun, outbox
      ensures outbox.Valid() && begun
      ensures outbox.messages == if old(begun) then old(outbox.messages) else old(outbox.messages) + [ToHook.Begin(intro)]
    {
      if !begun {
        begun := true;
        outbox.PushBack(ToHook.Begin(intro));
      }
    }

    /** A fresh follower, and the first world for it. */
    method StartOver(start: TurnStart) returns (r: Result<(), Spec.Fault>)
      requires outbox.Valid()
      modifies this, outbox
      ensures outbox.Valid() && follower != null && fresh(follower)
      ensures match Spec.OrderLoad(old(Abs()).(follower := Some(F.New(start))), None, start.sealedThrough + 1)
              case Ok(b) => r.Ok? && Abs() == b
              case Err(fault) => r == Err(fault)
    {
      follower := new TurnFollower(start);
      r := OrderLoad(None, start.sealedThrough + 1);
    }

    method OnTurn(turn: Turn) returns (r: Result<(), Spec.Fault>)
      requires outbox.Valid()
      modifies Repr()
      ensures outbox.Valid() && follower == old(follower)
      ensures match Spec.OnTurn(old(Abs()), turn)
              case Ok(b) => r.Ok? && Abs() == b
              case Err(fault) => r == Err(fault) && Abs() == old(Abs())
    {
      if follower == null {
        return Err(Spec.Unexpected("a turn before its stream"));
      }
      var accepted := follower.Accept(turn);
      if accepted.Err? {
        return Err(Spec.Follow(accepted.error));
      }
      if speed != Some(follower.speed) {
        speed := Some(follower.speed);
        outbox.PushBack(ToHook.Speed(follower.speed));
      }
      return Ok(());
    }

    method OnFetched(attempt: nat, file: string) returns (r: Result<(), Spec.Fault>)
      requires outbox.Valid()
      modifies this, outbox
      ensures outbox.Valid() && follower == old(follower)
      ensures match Spec.OnFetched(old(Abs()), attempt, file)
              case Ok(b) => r.Ok? && Abs() == b
              case Err(fault) => r == Err(fault) && Abs() == old(Abs())
    {
      if !world.Fetching? || attempt != world.attempt {
        return Ok(());
      }
      r := OrderLoad(Some(file), world.nextStep);
    }

    method PumpNow(due: nat -> Option<nat>, now: nat) returns (wait: Option<nat>)
      requires outbox.Valid()
      modifies Repr()
      ensures outbox.Valid() && follower == old(follower)
      ensures Abs() == Spec.PumpNow(old(Abs()), due, now)
    {
      wait := None;
      if !world.Fetching? && follower != null {
        wait := P.Pump(follower, due, now, outbox);
      }
    }

    method CurrentLoadAck(nextStep: nat) returns (r: Result<bool, Spec.Fault>)
      modifies `sentLoads
      ensures match Spec.CurrentLoadAck(old(Abs()), nextStep)
              case Ok((b, current)) => r == Ok(current) && Abs() == b
              case Err(fault) => r == Err(fault)
    {
      if sentLoads == [] {
        return Err(Spec.Unexpected("a world nobody ordered"));
      }
      var (expected, generation) := sentLoads[0];
      sentLoads := sentLoads[1..];
      if nextStep != expected {
        return Err(Spec.LoadedElsewhere(expected, nextStep));
      }
      return Ok(generation == loadGeneration && world == Spec.Loading(nextStep));
    }

    method Hear(message: ToAgent) returns (r: Result<Option<Spec.Report>, Spec.Fault>)
      requires outbox.Valid()
      modifies this, outbox
      ensures outbox.Valid() && follower == old(follower)
      ensures match Spec.Hear(old(Abs()), message)
              case Ok((b, report)) => r == Ok(report) && Abs() == b
              case Err(fault) => r == Err(fault)
    {
      if !hookReady && !message.HookHello? {
        return Err(Spec.Unexpected("a message before its hello"));
      }
      var current := world.Ready?;
      match message {
        case HookHello =>
          if hookReady {
            return Err(Spec.Unexpected("a second hello"));
          }
          hookReady := true;
          outbox.PushFront(Hello);
        case Loaded(nextStep) =>
          var ack := CurrentLoadAck(nextStep);
          if ack.Err? {
            return Err(ack.error);
          }
          if ack.value {
            world := Spec.Ready;
            progress := Some(Max(nextStep - 1, 0));
            loaded := true;
            return Ok(Some(Spec.Progress(progress.value)));
          }
        case Ran(step) =>
          if current {
            progress := Some(step);
            return Ok(Some(Spec.Progress(step)));
          }
        case Checkpoint(step) =>
          if current {
            return Ok(Some(Spec.Digests(step)));
          }
        case Said(_) =>
      }
      return Ok(None);
    }

    /** The oldest message leaves; a load's order is noted as it does. */
    method SendOne() returns (message: ToHook)
      requires outbox.Valid() && hookReady && outbox.messages != []
      modifies `sentLoads, outbox
      ensures outbox.Valid() && Abs() == Spec.SendOne(old(Abs()))
      ensures [message] + outbox.messages == old(outbox.messages)
    {
      message := outbox.messages[0];
      if message.Load? {
        sentLoads := sentLoads + [(message.nextStep, loadGeneration)];
      }
      var _ := outbox.PopFront();
    }

    /** `SendOne` again and again, `room` times at most. */
    method Flush(room: nat) returns (sent: seq<ToHook>)
      requires outbox.Valid()
      modifies `sentLoads, outbox
      ensures outbox.Valid() && Abs() == Spec.Flush(old(Abs()), room)
      ensures sent + outbox.messages == old(outbox.messages)
    {
      sent := [];
      if !hookReady {
        return;
      }
      var left := room;
      while left > 0 && |outbox.messages| > 0
        invariant outbox.Valid() && hookReady
        invariant Spec.Flush(Abs(), left) == Spec.Flush(old(Abs()), room)
        invariant sent + outbox.messages == old(outbox.messages)
        decreases left
      {
        Spec.FlushGoesOn(Abs(), left);
        var message := SendOne();
        Associates(sent, [message], outbox.messages);
        sent := sent + [message];
        left := left - 1;
      }
    }
  }
}
