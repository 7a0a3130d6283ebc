/** Following a log, with a token bucket that limits how much is read
    (crates/tpf3mp-agent/src/game_logs.rs). Bytes are of any type, with a test for
    the newline; times are in seconds. */
module LogTail {
  import opened Protocol

  const LONGEST_LINE: nat := 0x1_0000

  // ---- The budget ----

  /** A token bucket that holds a minute's worth. */
  datatype Budget = Budget(perMinute: nat, tokens: real, at: real)

  function NewBudget(perMinute: nat, now: real): Budget { Budget(perMinute, perMinute as real, now) }

  function Refill(perMinute: nat, elapsed: real): real { elapsed * perMinute as real / 60.0 }

  /** The budget as it stands at `now`. */
  function At(b: Budget, now: real): Budget {
    var full := b.tokens + Refill(b.perMinute, if now > b.at then now - b.at else 0.0);
    b.(at := now, tokens := if full < b.perMinute as real then full else b.perMinute as real)
  }

  function Available(b: Budget): nat
    requires 0.0 <= b.tokens
  {
    b.tokens.Floor
  }

  function Spend(b: Budget, bytes: nat): Budget {
    b.(tokens := if b.tokens > bytes as real then b.tokens - bytes as real else 0.0)
  }

  predicate Within(b: Budget) { 0.0 <= b.tokens <= b.perMinute as real }

  lemma RefillIsNotNegative(perMinute: nat, elapsed: real)
    requires 0.0 <= elapsed
    ensures 0.0 <= Refill(perMinute, elapsed)
  {
  }

  lemma StaysWithin(b: Budget, now: real)
    requires Within(b)
    ensures Within(At(b, now))
  {
    RefillIsNotNegative(b.perMinute, if now > b.at then now - b.at else 0.0);
  }

  // ---- The tail ----

  /** `midLine`: a skip may have cut a line, of which the remainder is dropped. */
  datatype Tail<T> = Tail(pos: nat, created: Option<nat>, partial: seq<T>, midLine: bool, budget: Budget)

  datatype Meta = Meta(len: nat, created: Option<nat>)

  /** What becomes of bytes: given out as a line, which a newline ended or which was
      cut, or passed over. */
  datatype Chunk<T> = Given(bytes: seq<T>, ended: bool) | Passed(count: nat)

  predicate NoNewline<T>(s: seq<T>, nl: T -> bool) { forall i :: 0 <= i < |s| ==> !nl(s[i]) }

  /** Where the first newline is, or the length. */
  function FirstNewline<T>(s: seq<T>, nl: T -> bool): (i: nat)
    ensures i <= |s|
    ensures forall k :: 0 <= k < i ==> !nl(s[k])
    ensures i < |s| ==> nl(s[i])
  {
    if |s| == 0 || nl(s[0]) then 0 else 1 + FirstNewline(s[1..], nl)
  }

  /** What follows the last newline of `s`. */
  function Unfinished<T>(s: seq<T>, nl: T -> bool): (rest: seq<T>)
    ensures |rest| <= |s|
  {
    if |s| == 0 then []
    else
      var n := |s| - 1;
      if nl(s[n]) then [] else Unfinished(s[..n], nl) + [s[n]]
  }

  /** The complete lines of `s`, without their newlines. */
  function Lines<T>(s: seq<T>, nl: T -> bool): seq<seq<T>> {
    if |s| == 0 then []
    else
      var n := |s| - 1;
      if nl(s[n]) then Lines(s[..n], nl) + [Unfinished(s[..n], nl)] else Lines(s[..n], nl)
  }

  function Ended<T>(lines: seq<seq<T>>): seq<Chunk<T>> { seq(|lines|, i requires 0 <= i < |lines| => Given(lines[i], true)) }

  /** More than a minute's worth to read: the oldest goes. */
  function SkipOver<T>(t: Tail<T>, len: nat): (Tail<T>, seq<Chunk<T>>)
    requires t.pos <= len
  {
    var cap := t.budget.perMinute;
    if len - t.pos > cap then
      (t.(pos := len - cap, partial := [], midLine := true), [Passed(len - t.pos - cap + |t.partial|)])
    else (t, [])
  }

  /** An unfinished line over the limit is given out unended. */
  function Cut<T>(rest: seq<T>): seq<Chunk<T>> { if |rest| > LONGEST_LINE then [Given(rest, false)] else [] }

  function ReadLines<T>(t: Tail<T>, bytes: seq<T>, nl: T -> bool): (Tail<T>, seq<Chunk<T>>) {
    var all := t.partial + bytes;
    var rest := Unfinished(all, nl);
    (t.(partial := if |rest| > LONGEST_LINE then [] else rest), Ended(Lines(all, nl)) + Cut(rest))
  }

  function ReadIn<T>(t: Tail<T>, bytes: seq<T>, nl: T -> bool): (Tail<T>, seq<Chunk<T>>) {
    if !t.midLine then ReadLines(t, bytes, nl)
    else
      var end := FirstNewline(bytes, nl);
      if end == |bytes| then (t, if |bytes| == 0 then [] else [Passed(|bytes|)])
      else
        var (m, more) := ReadLines(t.(midLine := false), bytes[end + 1..], nl);
        (m, [Passed(end + 1)] + more)
  }

  /** Whether the file was made anew. */
  predicate Anew<T>(t: Tail<T>, meta: Meta) {
    meta.len < t.pos || (meta.created.Some? && t.created.Some? && meta.created != t.created)
  }

  function FromItsStart<T>(t: Tail<T>): Tail<T> { t.(pos := 0, partial := [], midLine := false) }

  /** What one look came to, and how many bytes it read. */
  datatype Polled<T> = Polled(chunks: seq<Chunk<T>>, read: nat)

  function Slice<T>(content: seq<T>, pos: nat, want: nat): (r: seq<T>)
    ensures |r| <= want
    ensures pos + want <= |content| ==> |r| == want
  {
    if |content| <= pos then [] else if |content| - pos <= want then content[pos..] else content[pos..pos + want]
  }

  /** How many bytes to read of a file of length `len`. */
  function Want<T>(t: Tail<T>, len: nat, now: real): nat
    requires Within(t.budget) && t.pos <= len
  {
    StaysWithin(t.budget, now);
    var available := Available(At(t.budget, now));
    if len - t.pos < available then len - t.pos else available
  }

  /** The tail as it has read `bytes` bytes, before taking them in. */
  function Past<T>(t: Tail<T>, bytes: nat, now: real): Tail<T> {
    t.(pos := t.pos + bytes, budget := Spend(At(t.budget, now), bytes))
  }

  /** Reads what the budget lets of a file of length `len`; `content` is what it
      holds when it is opened, unless it could not be read. */
  function ReadOn<T>(t: Tail<T>, len: nat, content: Option<seq<T>>, now: real, nl: T -> bool): (r: (Tail<T>, Polled<T>))
    requires Within(t.budget) && t.pos <= len
    ensures Within(r.0.budget)
  {
    StaysWithin(t.budget, now);
    var want := Want(t, len, now);
    if want == 0 || content.None? then (t.(budget := At(t.budget, now)), Polled([], 0))
    else
      var bytes := Slice(content.value, t.pos, want);
      var (m, chunks) := ReadIn(Past(t, |bytes|, now), bytes, nl);
      (m, Polled(chunks, |bytes|))
  }

  /** One look at the file: `meta` unless it could not be looked at. */
  function Poll<T>(t: Tail<T>, meta: Option<Meta>, content: Option<seq<T>>, now: real, nl: T -> bool): (r: (Tail<T>, Polled<T>))
    requires Within(t.budget)
    ensures Within(r.0.budget)
  {
    if meta.None? then (t, Polled([], 0))
    else
      var m := meta.value;
      var a := if Anew(t, m) then FromItsStart(t) else t;
      var (b, skipped) := SkipOver(a.(created := if m.created.Some? then m.created else t.created), m.len);
      var (d, polled) := ReadOn(b, m.len, content, now, nl);
      (d, Polled(skipped + polled.chunks, polled.read))
  }

  /** While diagnostics are off. */
  function SkipToEnd<T>(t: Tail<T>, meta: Option<Meta>): Tail<T> {
    var m := t.(partial := [], midLine := false);
    if meta.None? then m else m.(pos := meta.value.len, created := meta.value.created)
  }

  function FromEnd<T>(meta: Option<Meta>, perMinute: nat, now: real): Tail<T> {
    Tail(if meta.None? then 0 else meta.value.len, if meta.None? then None else meta.value.created,
         [], false, NewBudget(perMinute, now))
  }

  /** What a look says it skipped. */
  function Skipped<T>(chunks: seq<Chunk<T>>): nat {
    if |chunks| == 0 then 0
    else
      var last := chunks[|chunks| - 1];
      Skipped(chunks[..|chunks| - 1]) + if last.Passed? then last.count else 0
  }

  /** The lines it gives: `show` leaves a line out when it is blank. */
  function Shown<T, L>(chunks: seq<Chunk<T>>, show: seq<T> -> Option<L>): seq<L> {
    if |chunks| == 0 then []
    else
      var last := chunks[|chunks| - 1];
      Shown(chunks[..|chunks| - 1], show) + if last.Given? then ShownLine(last.bytes, show) else []
  }

  function ShownLine<T, L>(line: seq<T>, show: seq<T> -> Option<L>): seq<L> {
    var shown := show(line);
    if shown.Some? then [shown.value] else []
  }
}
