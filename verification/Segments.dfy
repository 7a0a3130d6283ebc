/** What a game was told, load by load: a load makes everything sent before it
    void (crates/tpf3mp-bridge/src/lib.rs, `ToHook::Load`). */
module Segments {
  import opened Protocol
  import opened Trace
  import opened HookLink
  import opened Outbox
  import opened Pump

  /** The events and releases that followed one load, which named `file` and `first`. */
  datatype Segment = Segment(file: Option<string>, first: nat, moves: seq<ToHook>)

  function SegmentOf(load: ToHook): Segment
    requires load.Load?
  {
    Segment(load.file, load.nextStep, [])
  }

  function Feed(segments: seq<Segment>, m: ToHook): seq<Segment> {
    if m.Load? then segments + [SegmentOf(m)]
    else if Moves(m) && segments != [] then
      var last := segments[|segments| - 1];
      segments[|segments| - 1 := last.(moves := last.moves + [m])]
    else segments
  }

  function FeedAll(segments: seq<Segment>, messages: seq<ToHook>): seq<Segment>
    decreases |messages|
  {
    if messages == [] then segments else FeedAll(Feed(segments, messages[0]), messages[1..])
  }

  function Heard(log: seq<ToHook>): seq<Segment> { FeedAll([], log) }

  lemma {:induction false} FeedAppend(segments: seq<Segment>, a: seq<ToHook>, b: seq<ToHook>)
    ensures FeedAll(segments, a + b) == FeedAll(FeedAll(segments, a), b)
    decreases |a|
  {
    if a == [] {
      assert a + b == b;
    } else {
      assert (a + b)[0] == a[0] && (a + b)[1..] == a[1..] + b;
      FeedAppend(Feed(segments, a[0]), a[1..], b);
    }
  }

  lemma FeedOne(segments: seq<Segment>, messages: seq<ToHook>, m: ToHook)
    ensures FeedAll(segments, messages + [m]) == Feed(FeedAll(segments, messages), m)
  {
    FeedAppend(segments, messages, [m]);
    assert [m][1..] == [];
  }

  /** Messages that do not move the game change nothing of it. */
  lemma {:induction false} FeedKeep(segments: seq<Segment>, messages: seq<ToHook>, keep: ToHook -> bool)
    requires forall m <- messages :: Moves(m) ==> keep(m)
    ensures FeedAll(segments, Keep(messages, keep)) == FeedAll(segments, messages)
    decreases |messages|
  {
    if messages != [] {
      assert messages[0] in messages && forall m <- messages[1..] :: m in messages;
      FeedKeep(Feed(segments, messages[0]), messages[1..], keep);
      if keep(messages[0]) {
        assert Keep(messages, keep)[0] == messages[0] && Keep(messages, keep)[1..] == Keep(messages[1..], keep);
      } else {
        assert Keep(messages, keep) == Keep(messages[1..], keep);
      }
    }
  }

  lemma {:induction false} FeedIdle(segments: seq<Segment>, messages: seq<ToHook>)
    requires forall m <- messages :: !Moves(m)
    ensures FeedAll(segments, messages) == segments
    decreases |messages|
  {
    if messages != [] {
      assert messages[0] in messages && forall m <- messages[1..] :: m in messages;
      FeedIdle(segments, messages[1..]);
    }
  }

  /** Events and releases go to the latest load's world. */
  lemma {:induction false} FeedMoves(segments: seq<Segment>, messages: seq<ToHook>)
    requires segments != [] && forall m <- messages :: m.Apply? || m.Release?
    ensures var last := segments[|segments| - 1];
            FeedAll(segments, messages) == segments[|segments| - 1 := last.(moves := last.moves + messages)]
    decreases |messages|
  {
    var last := segments[|segments| - 1];
    if messages == [] {
      assert last.moves + messages == last.moves;
    } else {
      assert messages[0] in messages && forall m <- messages[1..] :: m in messages;
      var fed := Feed(segments, messages[0]);
      FeedMoves(fed, messages[1..]);
      assert last.moves + [messages[0]] + messages[1..] == last.moves + messages;
    }
  }

  /** More messages add segments, and add to the latest; nothing told is untold. */
  ghost predicate Extends(a: seq<Segment>, b: seq<Segment>) {
    && |a| <= |b|
    && forall i :: 0 <= i < |a| ==> b[i].file == a[i].file && b[i].first == a[i].first && a[i].moves <= b[i].moves
  }

  lemma {:induction false} FeedExtends(segments: seq<Segment>, messages: seq<ToHook>)
    ensures Extends(segments, FeedAll(segments, messages))
    decreases |messages|
  {
    if messages != [] {
      var fed := Feed(segments, messages[0]);
      assert Extends(segments, fed);
      FeedExtends(fed, messages[1..]);
      var all := FeedAll(segments, messages);
      forall i | 0 <= i < |segments|
        ensures all[i].file == segments[i].file && all[i].first == segments[i].first && segments[i].moves <= all[i].moves
      {
        assert fed[i].moves <= all[i].moves;
      }
    }
  }

  /** A world loaded to follow a stream: where the stream started and the turns
      accepted on it. */
  datatype Era = Era(start: Frontier, turns: seq<Turn>)

  function TraceOf(era: Era): seq<Action> { Canonical(era.start, era.turns) }

  /** The game was told, in a form its gate takes, a part of the canonical trace of
      its era, from its beginning. */
  ghost predicate Follows(segment: Segment, era: Era) {
    && segment.first == era.start.sealed + 1
    && Log(era.start, era.turns)
    && (forall m <- segment.moves :: m.Apply? || m.Release?)
    && Ascending(segment.moves, era.start.sealed)
    && Expand(segment.moves, era.start.sealed) <= TraceOf(era)
  }

  lemma LessFollows(less: Segment, segment: Segment, era: Era)
    requires Follows(segment, era)
    requires less.first == segment.first && less.moves <= segment.moves
    ensures Follows(less, era)
  {
    var rest := segment.moves[|less.moves|..];
    assert segment.moves == less.moves + rest;
    ExpandAppend(less.moves, rest, era.start.sealed);
    forall m <- less.moves ensures m.Apply? || m.Release? {
      assert m in segment.moves;
    }
  }

  lemma MoreTurnsFollow(segment: Segment, era: Era, t: Turn)
    requires Follows(segment, era) && Fits(AfterAll(era.start, era.turns), t)
    ensures Follows(segment, era.(turns := era.turns + [t]))
  {
    OneMore(era.start, era.turns, t);
  }
}
