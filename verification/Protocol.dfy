/** What the server and the agent say to each other about a room's turns, and
    what the agent says to the game's hook. */
module Protocol {
  datatype Option<+T> = None | Some(value: T)

  datatype Result<+T, +E> = Ok(value: T) | Err(error: E)

  // Counters on the wire are 64 bits wide; their increments are checked.
  const U64_MAX: nat := 0xFFFF_FFFF_FFFF_FFFF

  type u64 = n: nat | n <= U64_MAX witness 0

  newtype Byte = n: int | 0 <= n < 256

  type Player = nat

  /** The two kinds of event body that differ in what they weigh: a command
      carries a payload, nothing else does. */
  datatype Body = Command(player: Player, payload: seq<Byte>) | Notice(kind: nat, player: Player)

  datatype Event = Event(seq_: u64, step: u64, body: Body)

  datatype Turn = Turn(number: u64, sealedThrough: u64, speed: nat, events: seq<Event>)

  /** The first message of a turn stream. `world` is the save to load first. */
  datatype TurnStart = TurnStart(nextTurn: u64, nextEvent: u64, sealedThrough: u64,
                                 history: u64, world: Option<nat>)

  /** What an event carries besides its header. */
  function PayloadLen(e: Event): nat {
    match e.body
    case Command(_, payload) => |payload|
    case Notice(_, _) => 0
  }

  function Max(a: int, b: int): (m: int)
    ensures m == a || m == b
    ensures a <= m && b <= m
  {
    if a < b then b else a
  }

  lemma Associates<X>(a: seq<X>, b: seq<X>, c: seq<X>)
    ensures a + (b + c) == a + b + c
  {
  }
}
