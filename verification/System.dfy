/** The bridge and the game's hook as one system: the two ends of a link that
    delivers in order both ways, taking steps in any order. Whatever is sent
    carries, as ghost data, the world it is about: the generation of the load
    that brought it. */
module System {
  import opened Protocol
  import opened Trace
  import opened HookLink
  import opened BridgeSpec
  import opened Segments
  import F = FollowerSpec
  import O = Outbox

  /** A message about the world of generation `world` (0 before any load). */
  datatype Tagged<M> = Tagged(message: M, world: nat)

  type LoadOrder = t: Tagged<ToHook> | t.message.Load? witness Tagged(Load(None, 0), 0)

  /** The hook: whether it said hello, the loads it read and has not finished, in
      order, and the world it plays with the load that brought it. */
  datatype Hook = Hook(greeted: bool, orders: seq<LoadOrder>, world: nat, plays: Option<ToHook>)

  /** A report the bridge took and the message it heard, the world that came from, and
      the latest load order at that time. */
  datatype Taken = Taken(report: Report, heard: ToAgent, from: nat, latest: nat)

  /** `link` goes to the hook, `back` comes from it; `held` was read between
      connections. `log` is all that was ever sent, `sent` the
      generation of each load in it. `era` is what the follower follows now, and
      `eras` what each load order followed. `answered` is the generation of the
      last answer read. A fault or the session's end stops it: `over`. */
  datatype Sys = Sys(b: Bridge, link: seq<Tagged<ToHook>>, hook: Hook,
                     back: seq<Tagged<ToAgent>>, held: seq<Tagged<ToAgent>>,
                     answered: nat, log: seq<ToHook>, sent: seq<nat>,
                     era: Era, eras: seq<Era>, taken: seq<Taken>, over: bool)

  const NO_ERA := Era(Frontier(0, 0, 0), [])

  const INITIAL := Sys(FRESH, [], Hook(false, [], 0, None), [], [], 0, [], [], NO_ERA, [], [], false)

  datatype Step =
    | Stream(start: TurnStart, keepsWorlds: bool, intro: nat)
    | TakeTurn(turn: Turn)
    | Fetched(attempt: nat, file: string)
    | Play(due: nat -> Option<nat>, now: nat)
    | Say(kind: nat, carried: nat)
    | Show(from: Player, preview: Option<seq<Byte>>)
    | LobbyNews(carried: nat)
    | Send
    | Read
    | Away(count: nat)
    | HookGreets
    | HookReads
    | HookLoads
    | HookTells(message: ToAgent)

  function NotLobby(): ToHook -> bool { (m: ToHook) => !m.Lobby? }

  /** What a new load order or a new turn does to the eras. */
  function Reordered(s: Sys, b: Bridge, era: Era): Sys {
    s.(b := b, era := era, eras := if b.loadGeneration > s.b.loadGeneration then s.eras + [era] else s.eras)
  }

  /** What is left to hear after the first message. */
  function Rest(s: Sys): Sys
    requires s.held + s.back != []
  {
    var m := (s.held + s.back)[0];
    s.(held := if s.held == [] then [] else s.held[1..], back := if s.held == [] then s.back[1..] else s.back,
       answered := if m.message.Loaded? then m.world else s.answered)
  }

  /** The bridge hears the first message, `m`. */
  function Take(s: Sys, m: Tagged<ToAgent>): Sys
    requires s.held + s.back != []
  {
    match Hear(s.b, m.message)
    case Err(_) => s.(over := true)
    case Ok((b, report)) =>
      Rest(s).(b := b,
               taken := if report.Some? then s.taken + [Taken(report.value, m.message, m.world, s.b.loadGeneration)] else s.taken)
  }

  // ---- The bridge's steps ----

  function Streamed(s: Sys, start: TurnStart, keepsWorlds: bool, intro: nat): Sys {
    match OnStream(s.b, start, keepsWorlds, intro)
    case Err(_) => s.(over := true)
    case Ok(b) => Reordered(s, b, if Continues(s.b, start) then s.era else Era(FrontierOf(start), []))
  }

  function Turned(s: Sys, turn: Turn): Sys {
    match OnTurn(s.b, turn)
    case Err(_) => s.(over := true)
    case Ok(b) =>
      var era := s.era.(turns := s.era.turns + [turn]);
      s.(b := b, era := era,
         eras := if s.b.world.Fetching? || s.eras == [] then s.eras else s.eras[|s.eras| - 1 := era])
  }

  function WithSave(s: Sys, attempt: nat, file: string): Sys {
    match OnFetched(s.b, attempt, file)
    case Err(_) => s.(over := true)
    case Ok(b) => Reordered(s, b, s.era)
  }

  function Played(s: Sys, due: nat -> Option<nat>, now: nat): Sys { s.(b := PumpNow(s.b, due, now)) }

  function Telling(s: Sys, kind: nat, carried: nat): Sys {
    s.(b := s.b.(outbox := s.b.outbox + [Other(kind, carried)]))
  }

  function Showed(s: Sys, from: Player, preview: Option<seq<Byte>>): Sys {
    if s.b.begun && s.b.world.Ready? then s.(b := s.b.(outbox := O.WithPreview(s.b.outbox, from, preview))) else s
  }

  function LobbyTold(s: Sys, carried: nat): Sys {
    s.(b := s.b.(outbox := O.Keep(s.b.outbox, NotLobby()) + [Lobby(carried)]))
  }

  function SentOut(s: Sys): Sys {
    if !s.b.hookReady || s.b.outbox == [] then s
    else
      var m := s.b.outbox[0];
      s.(b := SendOne(s.b), link := s.link + [Tagged(m, s.b.loadGeneration)], log := s.log + [m],
         sent := if m.Load? then s.sent + [s.b.loadGeneration] else s.sent)
  }

  function Listened(s: Sys): Sys { if s.held + s.back == [] then s else Take(s, (s.held + s.back)[0]) }

  function KeptAway(s: Sys, count: nat): Sys {
    var n := if count <= |s.back| then count else |s.back|;
    s.(held := s.held + s.back[..n], back := s.back[n..])
  }

  // ---- The hook's steps ----

  function HookGreeted(s: Sys): Sys {
    if s.hook.greeted then s
    else s.(hook := s.hook.(greeted := true), back := s.back + [Tagged(HookHello, s.hook.world)])
  }

  function HookTook(s: Sys): Sys {
    if s.link == [] then s
    else
      var m := s.link[0];
      s.(link := s.link[1..],
         hook := if m.message.Load? then s.hook.(orders := s.hook.orders + [m]) else s.hook)
  }

  function HookLoaded(s: Sys): Sys {
    if s.hook.orders == [] then s
    else
      var order := s.hook.orders[0];
      s.(hook := s.hook.(orders := s.hook.orders[1..], world := order.world, plays := Some(order.message)),
         back := s.back + [Tagged(Loaded(order.message.nextStep), order.world)])
  }

  function HookTold(s: Sys, message: ToAgent): Sys {
    if !s.hook.greeted || message.HookHello? || message.Loaded? then s
    else s.(back := s.back + [Tagged(message, s.hook.world)])
  }

  function Next(s: Sys, step: Step): Sys {
    if s.over then s
    else
      match step
      case Stream(start, keepsWorlds, intro) => Streamed(s, start, keepsWorlds, intro)
      case TakeTurn(turn) => Turned(s, turn)
      case Fetched(attempt, file) => WithSave(s, attempt, file)
      case Play(due, now) => Played(s, due, now)
      case Say(kind, carried) => Telling(s, kind, carried)
      case Show(from, preview) => Showed(s, from, preview)
      case LobbyNews(carried) => LobbyTold(s, carried)
      case Send => SentOut(s)
      case Read => Listened(s)
      case Away(count) => KeptAway(s, count)
      case HookGreets => HookGreeted(s)
      case HookReads => HookTook(s)
      case HookLoads => HookLoaded(s)
      case HookTells(message) => HookTold(s, message)
  }

  /** Whether a stream continues the follower's turns instead of starting anew. */
  predicate Continues(b: Bridge, start: TurnStart) {
    start.world.None? && b.follower.Some? && F.Restart(b.follower.value, start).Ok?
  }

  /** The states of a run, from its beginning, and the steps between them. */
  ghost predicate IsRun(run: seq<Sys>, steps: seq<Step>) {
    && |run| == |steps| + 1 && run[0] == INITIAL
    && forall i :: 0 <= i < |steps| ==> Moved(run, steps, i)
  }

  ghost predicate Moved(run: seq<Sys>, steps: seq<Step>, i: nat)
    requires |run| == |steps| + 1 && i < |steps|
  {
    run[i + 1] == Next(run[i], steps[i])
  }
}
