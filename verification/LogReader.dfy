/** The budget and the tail of `LogTail`, updated in place. */
module LogReader {
  import opened Protocol
  import L = LogTail
  import opened LogTail
  import opened LogAccounts

  class Meter {
    const perMinute: nat
    var tokens: real
    var at: real

    ghost function Abs(): Budget
      reads this
    {
      Budget(perMinute, tokens, at)
    }

    constructor (perMinute: nat, now: real)
      ensures Abs() == NewBudget(perMinute, now)
    {
      this.perMinute, tokens, at := perMinute, perMinute as real, now;
    }

    method Refresh(now: real) returns (bytes: nat)
      requires Within(Abs())
      modifies this
      ensures Within(Abs()) && Abs() == At(old(Abs()), now) && bytes == Available(Abs())
    {
      StaysWithin(Abs(), now);
      var full := tokens + Refill(perMinute, if now > at then now - at else 0.0);
      at := now;
      tokens := if full < perMinute as real then full else perMinute as real;
      return tokens.Floor;
    }

    method Spend(bytes: nat)
      modifies `tokens
      ensures Abs() == L.Spend(old(Abs()), bytes)
    {
      tokens := if tokens > bytes as real then tokens - bytes as real else 0.0;
    }
  }

  lemma {:induction false} ShownAppend<T, R>(a: seq<Chunk<T>>, b: seq<Chunk<T>>, show: seq<T> -> Option<R>)
    ensures Shown(a + b, show) == Shown(a, show) + Shown(b, show)
    ensures Skipped(a + b) == Skipped(a) + Skipped(b)
    decreases |b|
  {
    if |b| == 0 {
      assert a + b == a;
    } else {
      var n := |b| - 1;
      assert (a + b)[..|a| + n] == a + b[..n];
      ShownAppend(a, b[..n], show);
    }
  }

  lemma {:induction false} ShownEnded<T, R>(lines: seq<seq<T>>, show: seq<T> -> Option<R>)
    ensures Shown(Ended(lines), show) == ShownLines(lines, show)
    ensures Skipped(Ended(lines)) == 0
  {
    if |lines| > 0 {
      var n := |lines| - 1;
      ShownEnded(lines[..n], show);
      assert Ended(lines)[..n] == Ended(lines[..n]);
    }
  }

  lemma LineThenRest<T>(line: seq<T>, end: T, rest: seq<T>, nl: T -> bool)
    requires NoNewline(line, nl) && nl(end)
    ensures Lines(line + [end] + rest, nl) == [line] + Lines(rest, nl)
    ensures Unfinished(line + [end] + rest, nl) == Unfinished(rest, nl)
  {
    LineOfItsOwn([], line, end, nl);
    assert [] + (line + [end]) == line + [end] && Lines<T>([], nl) + [line] == [line];
    LinesInPieces(line + [end], rest, nl);
    assert Unfinished(line + [end], nl) + rest == rest;
  }

  lemma GiveOne<T, R>(rest: seq<T>, end: nat, given: seq<seq<T>>, nl: T -> bool, show: seq<T> -> Option<R>)
    requires end == FirstNewline(rest, nl) < |rest|
    ensures var line, more := rest[..end], rest[end + 1..];
            && given + Lines(rest, nl) == given + [line] + Lines(more, nl) && Unfinished(rest, nl) == Unfinished(more, nl)
            && ShownLines(given + [line], show) == ShownLines(given, show) + ShownLine(line, show)
  {
    var line, more := rest[..end], rest[end + 1..];
    assert rest == line + [rest[end]] + more;
    LineThenRest(line, rest[end], more, nl);
    Associates(given, [line], Lines(more, nl));
    assert (given + [line])[..|given|] == given;
  }

  lemma AllGiven<T, R>(all: seq<T>, rest: seq<T>, given: seq<seq<T>>, nl: T -> bool, show: seq<T> -> Option<R>)
    requires Lines(all, nl) == given + Lines(rest, nl) && Unfinished(all, nl) == Unfinished(rest, nl)
    requires NoNewline(rest, nl)
    ensures Unfinished(all, nl) == rest && Skipped(Ended(Lines(all, nl)) + Cut(rest)) == 0
    ensures Shown(Ended(Lines(all, nl)) + Cut(rest), show)
            == if |rest| > LONGEST_LINE then ShownLines(given, show) + ShownLine(rest, show) else ShownLines(given, show)
  {
    NoLines(rest, nl);
    assert given + [] == given;
    ShownEnded(given, show);
    ShownAppend(Ended(given), Cut(rest), show);
    assert [] + ShownLine(rest, show) == ShownLine(rest, show) && ShownLines(given, show) + [] == ShownLines(given, show);
  }

  /** A followed log. Nothing but its newlines is known of its bytes, and of
      its lines only which are shown. */
  class Follower<T, R> {
    var pos: nat
    var created: Option<nat>
    var partial: seq<T>
    var midLine: bool
    const budget: Meter
    const nl: T -> bool
    const show: seq<T> -> Option<R>

    ghost function Abs(): Tail<T>
      reads this, budget
    {
      Tail(pos, created, partial, midLine, budget.Abs())
    }

    constructor (meta: Option<Meta>, perMinute: nat, now: real, nl: T -> bool, show: seq<T> -> Option<R>)
      ensures Abs() == FromEnd(meta, perMinute, now) && fresh(budget)
      ensures this.nl == nl && this.show == show
    {
      pos := if meta.None? then 0 else meta.value.len;
      created := if meta.None? then None else meta.value.created;
      partial, midLine := [], false;
      budget := new Meter(perMinute, now);
      this.nl, this.show := nl, show;
    }

    method SkipToEnd(meta: Option<Meta>)
      modifies this
      ensures Abs() == L.SkipToEnd(old(Abs()), meta)
    {
      if meta.Some? {
        pos, created := meta.value.len, meta.value.created;
      }
      partial, midLine := [], false;
    }

    method Poll(meta: Option<Meta>, content: Option<seq<T>>, now: real) returns (lines: seq<R>, skipped: nat)
      requires Within(budget.Abs())
      modifies this, budget
      ensures var (t, polled) := L.Poll(old(Abs()), meta, content, now, nl);
              Abs() == t && lines == Shown(polled.chunks, show) && skipped == Skipped(polled.chunks)
    {
      if meta.None? {
        return [], 0;
      }
      var m := meta.value;
      if m.len < pos || (m.created.Some? && created.Some? && m.created != created) {
        pos, partial, midLine := 0, [], false;
      }
      created := if m.created.Some? then m.created else created;
      ghost var before := Abs();
      var over := SkipAhead(m.len);
      ghost var from := Abs();
      lines, skipped := ReadOn(m.len, content, now);
      ShownAppend(SkipOver(before, m.len).1, L.ReadOn(from, m.len, content, now, nl).1.chunks, show);
      skipped := over + skipped;
    }

    method SkipAhead(len: nat) returns (skipped: nat)
      requires pos <= len
      modifies `pos, `partial, `midLine
      ensures var (t, chunks) := SkipOver(old(Abs()), len);
              Abs() == t && skipped == Skipped(chunks) && Shown(chunks, show) == []
    {
      var cap := budget.perMinute;
      if len - pos <= cap {
        return 0;
      }
      var skip := len - pos - cap;
      pos := pos + skip;
      skipped := skip + |partial|;
      partial, midLine := [], true;
    }

    method ReadOn(len: nat, content: Option<seq<T>>, now: real) returns (lines: seq<R>, skipped: nat)
      requires Within(budget.Abs()) && pos <= len
      modifies this, budget
      ensures var (t, polled) := L.ReadOn(old(Abs()), len, content, now, nl);
              Abs() == t && lines == Shown(polled.chunks, show) && skipped == Skipped(polled.chunks)
    {
      var available := budget.Refresh(now);
      var want := if len - pos < available then len - pos else available;
      if want == 0 || content.None? {
        return [], 0;
      }
      var bytes := Slice(content.value, pos, want);
      budget.Spend(|bytes|);
      pos := pos + |bytes|;
      assert Abs() == Past(old(Abs()), |bytes|, now);
      lines, skipped := ReadIn(bytes);
    }

    /** Takes in what was read. */
    method ReadIn(bytes: seq<T>) returns (lines: seq<R>, skipped: nat)
      modifies `partial, `midLine
      ensures var (t, chunks) := L.ReadIn(old(Abs()), bytes, nl);
              Abs() == t && lines == Shown(chunks, show) && skipped == Skipped(chunks)
    {
      if !midLine {
        lines := ReadLines(bytes);
        return lines, 0;
      }
      var end := FirstNewline(bytes, nl);
      if end == |bytes| {
        return [], |bytes|;
      }
      midLine := false;
      ghost var from := Abs();
      lines := ReadLines(bytes[end + 1..]);
      ShownAppend([Passed(end + 1)], L.ReadLines(from, bytes[end + 1..], nl).1, show);
      return lines, end + 1;
    }

    method ReadLines(bytes: seq<T>) returns (lines: seq<R>)
      modifies `partial
      ensures var (t, chunks) := L.ReadLines(old(Abs()), bytes, nl);
              Abs() == t && lines == Shown(chunks, show) && Skipped(chunks) == 0
    {
      var rest;
      lines, rest := GiveLines(partial + bytes);
      if |rest| > LONGEST_LINE {
        lines := lines + ShownLine(rest, show);
        rest := [];
      }
      partial := rest;
    }

    /** The complete lines of `all`, shown, and what is left of it. */
    method GiveLines(all: seq<T>) returns (lines: seq<R>, rest: seq<T>)
      ensures rest == Unfinished(all, nl) && Skipped(Ended(Lines(all, nl)) + Cut(rest)) == 0
      ensures Shown(Ended(Lines(all, nl)) + Cut(rest), show)
              == if |rest| > LONGEST_LINE then lines + ShownLine(rest, show) else lines
    {
      lines, rest := [], all;
      ghost var given: seq<seq<T>> := [];
      var end := FirstNewline(rest, nl);
      while end < |rest|
        invariant end == FirstNewline(rest, nl)
        invariant Lines(all, nl) == given + Lines(rest, nl) && Unfinished(all, nl) == Unfinished(rest, nl)
        invariant lines == ShownLines(given, show)
        decreases |rest|
      {
        var line, more := rest[..end], rest[end + 1..];
        GiveOne(rest, end, given, nl, show);
        lines := lines + ShownLine(line, show);
        given := given + [line];
        rest := more;
        end := FirstNewline(rest, nl);
      }
      AllGiven(all, rest, given, nl, show);
    }
  }
}
