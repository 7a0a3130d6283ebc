/** The messages between the agent and the game's hook. */
module HookLink {
  import opened Protocol

  // Kinds of other messages that something here tells apart.
  const END: nat := 0
  const AI_ASK: nat := 1

  /** Messages to the hook. `Other` stands for those that neither move the game
      nor replace one another (Chat, Room, Diverged, Refused, AI questions, End),
      with the bytes they carry. */
  datatype ToHook =
    | Hello
    | Begin(carried: nat)
    | Load(file: Option<string>, nextStep: nat)
    | Apply(event: Event)
    | Release(through: nat)
    | Speed(speed: nat)
    | Preview(from: Player, preview: Option<seq<Byte>>)
    | Lobby(carried: nat)
    | Other(kind: nat, carried: nat)

  /** Messages from the hook. `Said` stands for those about neither its world nor
      the link (commands, chat, its log). */
  datatype ToAgent =
    | HookHello
    | Loaded(nextStep: nat)
    | Ran(step: nat)
    | Checkpoint(step: nat)
    | Said(kind: nat)

  /** Whether a message moves the game in its world. */
  predicate Moves(m: ToHook) { m.Apply? || m.Release? || m.Load? }
}
