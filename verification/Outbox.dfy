/** The queue towards the hook, which keeps count of its weight
    (crates/tpf3mp-agent/src/bridge.rs, `Outbox`). */
module Outbox {
  import opened Protocol
  import opened HookLink

  const OUTBOX_BYTES: nat := 0x100_0000

  function Weight(m: ToHook): (w: nat)
    ensures 64 <= w
  {
    64 + match m
         case Load(Some(file), _) => |file|
         case Apply(event) => PayloadLen(event)
         case Preview(_, Some(payload)) => |payload|
         case Begin(carried) => carried
         case Lobby(carried) => carried
         case Other(_, carried) => carried
         case _ => 0
  }

  function Weights(messages: seq<ToHook>): nat {
    if messages == [] then 0 else Weight(messages[0]) + Weights(messages[1..])
  }

  // ---- What messages carry ----

  /** The payload of an event's command, or of a preview. */
  function PayloadOf(m: ToHook): seq<Byte> {
    match m
    case Apply(Event(_, _, Command(_, payload))) => payload
    case Preview(_, Some(payload)) => payload
    case _ => []
  }

  /** The path of a save. */
  function PathOf(m: ToHook): string {
    match m
    case Load(Some(file), _) => file
    case _ => []
  }

  /** What other messages are said to carry. */
  function SaidOf(m: ToHook): nat {
    match m
    case Begin(carried) => carried
    case Lobby(carried) => carried
    case Other(_, carried) => carried
    case _ => 0
  }

  datatype Carried = Carried(payloads: seq<Byte>, paths: string, said: nat)

  function AllCarried(messages: seq<ToHook>): Carried {
    if messages == [] then Carried([], [], 0)
    else
      var m, rest := messages[0], AllCarried(messages[1..]);
      Carried(PayloadOf(m) + rest.payloads, PathOf(m) + rest.paths, SaidOf(m) + rest.said)
  }

  /** Messages weigh what they carry, byte for byte, and 64 each. */
  lemma {:induction false} WeighWhatTheyCarry(messages: seq<ToHook>)
    ensures var c := AllCarried(messages);
            Weights(messages) == |c.payloads| + |c.paths| + c.said + 64 * |messages|
  {
    if messages != [] {
      WeighWhatTheyCarry(messages[1..]);
    }
  }

  lemma {:induction false} WeightsAppend(a: seq<ToHook>, b: seq<ToHook>)
    ensures Weights(a + b) == Weights(a) + Weights(b)
  {
    if a == [] {
      assert a + b == b;
    } else {
      assert (a + b)[0] == a[0] && (a + b)[1..] == a[1..] + b;
      WeightsAppend(a[1..], b);
    }
  }

  function Keep(messages: seq<ToHook>, keep: ToHook -> bool): seq<ToHook> {
    if messages == [] then []
    else if keep(messages[0]) then [messages[0]] + Keep(messages[1..], keep)
    else Keep(messages[1..], keep)
  }

  lemma {:induction false} KeepAppend(a: seq<ToHook>, b: seq<ToHook>, keep: ToHook -> bool)
    ensures Keep(a + b, keep) == Keep(a, keep) + Keep(b, keep)
  {
    if a == [] {
      assert a + b == b;
    } else {
      assert (a + b)[0] == a[0] && (a + b)[1..] == a[1..] + b;
      KeepAppend(a[1..], b, keep);
    }
  }

  lemma {:induction false} KeepOnly(messages: seq<ToHook>, keep: ToHook -> bool)
    ensures |Keep(messages, keep)| <= |messages|
    ensures forall m <- Keep(messages, keep) :: m in messages && keep(m)
    ensures (forall m <- messages :: keep(m)) ==> Keep(messages, keep) == messages
    ensures (forall m <- messages :: !keep(m)) ==> Keep(messages, keep) == []
  {
    if messages != [] {
      KeepOnly(messages[1..], keep);
    }
  }

  lemma {:induction false} KeepCommutes(messages: seq<ToHook>, p: ToHook -> bool, q: ToHook -> bool)
    ensures Keep(Keep(messages, p), q) == Keep(Keep(messages, q), p)
  {
    if messages != [] {
      var m, rest := messages[0], messages[1..];
      KeepCommutes(rest, p, q);
      KeepAppend(if p(m) then [m] else [], Keep(rest, p), q);
      KeepAppend(if q(m) then [m] else [], Keep(rest, q), p);
    }
  }

  function PreviewOf(from: Player): ToHook -> bool {
    (m: ToHook) => m.Preview? && m.from == from
  }

  function NotPreviewOf(from: Player): ToHook -> bool {
    (m: ToHook) => !(m.Preview? && m.from == from)
  }

  /** A member's new preview goes last; their older ones leave the queue. */
  function WithPreview(messages: seq<ToHook>, from: Player, preview: Option<seq<Byte>>): seq<ToHook> {
    Keep(messages, NotPreviewOf(from)) + [ToHook.Preview(from, preview)]
  }

  /** Afterwards only that preview of theirs waits; everything else is there as
      before, in the same order. */
  lemma PreviewReplaces(messages: seq<ToHook>, from: Player, preview: Option<seq<Byte>>)
    ensures var after := WithPreview(messages, from, preview);
            && Keep(after, PreviewOf(from)) == [ToHook.Preview(from, preview)]
            && Keep(after, NotPreviewOf(from)) == Keep(messages, NotPreviewOf(from))
            && forall other :: other != from ==> Keep(after, PreviewOf(other)) == Keep(messages, PreviewOf(other))
  {
    var stay, put := Keep(messages, NotPreviewOf(from)), [ToHook.Preview(from, preview)];
    KeepOnly(messages, NotPreviewOf(from));
    KeepAppend(stay, put, PreviewOf(from));
    KeepOnly(stay, PreviewOf(from));
    KeepAppend(stay, put, NotPreviewOf(from));
    KeepOnly(stay, NotPreviewOf(from));
    forall other | other != from
      ensures Keep(stay + put, PreviewOf(other)) == Keep(messages, PreviewOf(other))
    {
      KeepAppend(stay, put, PreviewOf(other));
      KeepCommutes(messages, NotPreviewOf(from), PreviewOf(other));
      KeepOnly(messages, PreviewOf(other));
      KeepOnly(Keep(messages, PreviewOf(other)), NotPreviewOf(from));
    }
  }

  // ---- Whole runs ------------------------------------------------------------------

  datatype Op = PushBack(message: ToHook) | PushFront(message: ToHook) | PopFront
              | Retain(keep: ToHook -> bool) | PushPreview(from: Player, preview: Option<seq<Byte>>)

  function Apply(messages: seq<ToHook>, op: Op): seq<ToHook> {
    match op
    case PushBack(m) => messages + [m]
    case PushFront(m) => [m] + messages
    case PopFront => if messages == [] then [] else messages[1..]
    case Retain(keep) => Keep(messages, keep)
    case PushPreview(from, preview) => WithPreview(messages, from, preview)
  }

  function Exec(ops: seq<Op>): seq<ToHook> {
    if ops == [] then [] else Apply(Exec(ops[..|ops| - 1]), ops[|ops| - 1])
  }

  /** Previews reach the queue only as previews. */
  ghost predicate Proper(ops: seq<Op>) {
    forall op <- ops :: (op.PushBack? || op.PushFront?) ==> !op.message.Preview?
  }

  /** The last preview `from` showed, if any. */
  function Shown(ops: seq<Op>, from: Player): seq<ToHook> {
    if ops == [] then []
    else
      var last := ops[|ops| - 1];
      if last.PushPreview? && last.from == from then [ToHook.Preview(from, last.preview)]
      else Shown(ops[..|ops| - 1], from)
  }

  /** What one operation leaves waiting of a member's previews. */
  lemma OneOperation(messages: seq<ToHook>, op: Op, from: Player)
    requires (op.PushBack? || op.PushFront?) ==> !op.message.Preview?
    requires |Keep(messages, PreviewOf(from))| <= 1
    ensures var after := Keep(Apply(messages, op), PreviewOf(from));
            if op.PushPreview? && op.from == from then after == [ToHook.Preview(from, op.preview)]
            else after == [] || after == Keep(messages, PreviewOf(from))
  {
    match op
    case PushBack(m) =>
      KeepAppend(messages, [m], PreviewOf(from));
      KeepOnly([m], PreviewOf(from));
    case PushFront(m) =>
      KeepAppend([m], messages, PreviewOf(from));
      KeepOnly([m], PreviewOf(from));
    case PopFront =>
      if messages != [] {
        assert Keep(messages, PreviewOf(from))
            == (if messages[0].Preview? && messages[0].from == from then [messages[0]] else [])
             + Keep(messages[1..], PreviewOf(from));
      }
    case Retain(keep) =>
      KeepCommutes(messages, keep, PreviewOf(from));
      var waiting := Keep(messages, PreviewOf(from));
      if waiting != [] {
        assert waiting == [waiting[0]] && waiting[1..] == [];
        assert Keep(waiting, keep) == (if keep(waiting[0]) then [waiting[0]] else []) + Keep(waiting[1..], keep);
      }
    case PushPreview(who, preview) =>
      PreviewReplaces(messages, who, preview);
  }

  /** In every run at most one preview of a member waits, and it is their last. */
  lemma {:induction false} OnlyTheLatestWaits(ops: seq<Op>, from: Player)
    requires Proper(ops)
    ensures Keep(Exec(ops), PreviewOf(from)) == [] || Keep(Exec(ops), PreviewOf(from)) == Shown(ops, from)
    ensures |Shown(ops, from)| <= 1
  {
    if ops != [] {
      var before, last := ops[..|ops| - 1], ops[|ops| - 1];
      assert last in ops && forall op <- before :: op in ops;
      OnlyTheLatestWaits(before, from);
      OneOperation(Exec(before), last, from);
    }
  }

  // ---- The outbox itself --------------------------------------------------------------

  class Box {
    var messages: seq<ToHook>
    var bytes: nat

    /** The count of bytes is exact. */
    ghost predicate Valid()
      reads this
    {
      bytes == Weights(messages)
    }

    constructor ()
      ensures Valid() && messages == []
    {
      messages, bytes := [], 0;
    }

    method PushBack(message: ToHook)
      requires Valid()
      modifies this
      ensures Valid() && messages == old(messages) + [message]
      ensures bytes == old(bytes) + Weight(message)
    {
      WeightsAppend(messages, [message]);
      bytes := bytes + Weight(message);
      messages := messages + [message];
    }

    method PushFront(message: ToHook)
      requires Valid()
      modifies this
      ensures Valid() && messages == [message] + old(messages)
    {
      bytes := bytes + Weight(message);
      messages := [message] + messages;
      assert messages[1..] == old(messages);
    }

    /** Takes the oldest message out. The subtraction saturates in the source; it
        never has to, since the count is exact. */
    method PopFront() returns (message: Option<ToHook>)
      requires Valid()
      modifies this
      ensures Valid()
      ensures message == if old(messages) == [] then None else Some(old(messages)[0])
      ensures messages == if old(messages) == [] then [] else old(messages)[1..]
      ensures message.Some? ==> bytes == old(bytes) - Weight(message.value)
    {
      if messages == [] {
        return None;
      }
      message := Some(messages[0]);
      bytes := Max(bytes - Weight(messages[0]), 0);
      messages := messages[1..];
    }

    method Retain(keep: ToHook -> bool)
      requires Valid()
      modifies this
      ensures Valid() && messages == Keep(old(messages), keep)
    {
      messages := Keep(messages, keep);
      bytes := Weights(messages);
    }

    method IsFull() returns (full: bool)
      ensures full <==> OUTBOX_BYTES <= bytes
    {
      full := bytes >= OUTBOX_BYTES;
    }

    /** `WithPreview`, in place. */
    method Preview(from: Player, preview: Option<seq<Byte>>)
      requires Valid()
      modifies this
      ensures Valid() && messages == WithPreview(old(messages), from, preview)
    {
      if exists m <- messages :: m.Preview? && m.from == from {
        Retain(NotPreviewOf(from));
      } else {
        KeepOnly(messages, NotPreviewOf(from));
      }
      PushBack(ToHook.Preview(from, preview));
    }
  }
}
