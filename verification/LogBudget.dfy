/** A source's budget, over whole runs of looks: what is read in any stretch of time
    stays within a minute's worth and what the time refills. */
module LogBudget {
  import opened Protocol
  import opened LogTail
  import opened LogAccounts

  lemma RefillAdds(perMinute: nat, a: real, b: real)
    ensures Refill(perMinute, a) + Refill(perMinute, b) == Refill(perMinute, a + b)
  {
  }

  lemma AvailableIsThere(b: Budget)
    requires 0.0 <= b.tokens
    ensures Available(b) as real <= b.tokens
  {
  }

  /** A look reads no more than there is, so spending never falls short. */
  lemma LookSpends<T>(f: Followed<T>, created: nat, look: Look<T>, nl: T -> bool)
    requires Within(f.tail.budget)
    ensures var (t, polled) := LooksAt(f, created, look, nl);
            if look.meta then
              t.budget == At(f.tail.budget, look.now).(tokens := At(f.tail.budget, look.now).tokens - polled.read as real)
            else t.budget == f.tail.budget && polled.read == 0
  {
    var b := At(f.tail.budget, look.now);
    StaysWithin(f.tail.budget, look.now);
    AvailableIsThere(b);
    if look.meta {
      var (t, polled) := LooksAt(f, created, look, nl);
      assert polled.read <= Available(b);
    }
  }

  /** The bytes read in all these looks. */
  function BytesRead<T>(f: Followed<T>, created: nat, looks: seq<Look<T>>, nl: T -> bool): nat
    requires Within(f.tail.budget)
  {
    if |looks| == 0 then 0
    else
      var n := |looks| - 1;
      BytesRead(f, created, looks[..n], nl) + LooksAt(FollowAll(f, created, looks[..n], nl), created, looks[n], nl).1.read
  }

  ghost predicate InTime<T>(looks: seq<Look<T>>, from: real) {
    && (|looks| > 0 ==> from <= looks[0].now)
    && forall i, j :: 0 <= i < j < |looks| ==> looks[i].now <= looks[j].now
  }

  /** What was read and what may still be. */
  ghost predicate Metered(b: Budget, perMinute: nat, since: real, read: nat) {
    && Within(b) && b.perMinute == perMinute
    && (if since <= b.at then read as real + b.tokens <= perMinute as real + Refill(perMinute, b.at - since) else read == 0)
  }

  lemma MeteredOn(b: Budget, perMinute: nat, since: real, read: nat, now: real, more: nat)
    requires Metered(b, perMinute, since, read) && since <= now && b.at <= now
    requires more as real <= At(b, now).tokens
    ensures Metered(At(b, now).(tokens := At(b, now).tokens - more as real), perMinute, since, read + more)
  {
    StaysWithin(b, now);
    RefillIsNotNegative(perMinute, now - since);
    if since <= b.at {
      if now > b.at {
        RefillAdds(perMinute, b.at - since, now - b.at);
      } else {
        RefillAdds(perMinute, b.at - since, 0.0);
      }
    }
  }

  lemma NothingMetered(b: Budget, since: real)
    requires Within(b) && b.at <= since
    ensures Metered(b, b.perMinute, since, 0)
  {
    RefillIsNotNegative(b.perMinute, 0.0);
  }

  lemma {:induction false} RunIsMetered<T>(f: Followed<T>, created: nat, looks: seq<Look<T>>, nl: T -> bool)
    requires Within(f.tail.budget) && |looks| > 0 && InTime(looks, f.tail.budget.at)
    ensures var b := FollowAll(f, created, looks, nl).tail.budget;
            && Metered(b, f.tail.budget.perMinute, looks[0].now, BytesRead(f, created, looks, nl))
            && f.tail.budget.at <= b.at <= looks[|looks| - 1].now
  {
    var n := |looks| - 1;
    var before := FollowAll(f, created, looks[..n], nl);
    if n > 0 {
      RunIsMetered(f, created, looks[..n], nl);
    } else {
      assert looks[..n] == [];
      NothingMetered(f.tail.budget, looks[0].now);
    }
    OneLookMore(f, created, looks, nl);
    LookMetered(before, created, looks[n], nl, f.tail.budget.perMinute, looks[0].now, BytesRead(f, created, looks[..n], nl));
  }

  lemma LookMetered<T>(f: Followed<T>, created: nat, look: Look<T>, nl: T -> bool, perMinute: nat, since: real, read: nat)
    requires Within(f.tail.budget) && Metered(f.tail.budget, perMinute, since, read)
    requires since <= look.now && f.tail.budget.at <= look.now
    ensures var (t, polled) := LooksAt(f, created, look, nl);
            Metered(t.budget, perMinute, since, read + polled.read) && f.tail.budget.at <= t.budget.at <= look.now
  {
    LookSpends(f, created, look, nl);
    if look.meta {
      MeteredOn(f.tail.budget, perMinute, since, read, look.now, LooksAt(f, created, look, nl).1.read);
    }
  }

  lemma MeteredBound(b: Budget, perMinute: nat, since: real, read: nat, last: real)
    requires Metered(b, perMinute, since, read) && since <= last && b.at <= last
    ensures read as real <= perMinute as real + Refill(perMinute, last - since)
  {
    RefillIsNotNegative(perMinute, last - since);
    if since <= b.at {
      RefillIsNotNegative(perMinute, last - b.at);
      RefillAdds(perMinute, b.at - since, last - b.at);
    }
  }

  lemma {:induction false} Unchanged<T>(f: Followed<T>, created: nat, looks: seq<Look<T>>, nl: T -> bool)
    requires Within(f.tail.budget)
    ensures FollowAll(f, created, looks, nl).tail.budget.perMinute == f.tail.budget.perMinute
  {
    if |looks| > 0 {
      Unchanged(f, created, looks[..|looks| - 1], nl);
      LookSpends(FollowAll(f, created, looks[..|looks| - 1], nl), created, looks[|looks| - 1], nl);
    }
  }

  /** From any look to any later one, no more bytes are read than a minute's worth
      and what the time between them refills. */
  lemma ReadsWithinTheBudget<T>(f: Followed<T>, created: nat, looks: seq<Look<T>>, i: nat, j: nat, nl: T -> bool)
    requires Within(f.tail.budget) && i <= j < |looks| && InTime(looks, f.tail.budget.at)
    ensures var perMinute := f.tail.budget.perMinute;
            BytesRead(FollowAll(f, created, looks[..i], nl), created, looks[i..j + 1], nl) as real
            <= perMinute as real + Refill(perMinute, looks[j].now - looks[i].now)
  {
    var g, stretch := FollowAll(f, created, looks[..i], nl), looks[i..j + 1];
    if i > 0 {
      RunIsMetered(f, created, looks[..i], nl);
    } else {
      assert looks[..i] == [];
    }
    Unchanged(f, created, looks[..i], nl);
    assert stretch[0] == looks[i] && stretch[|stretch| - 1] == looks[j];
    StretchIsMetered(g, created, stretch, nl);
  }

  lemma StretchIsMetered<T>(f: Followed<T>, created: nat, looks: seq<Look<T>>, nl: T -> bool)
    requires Within(f.tail.budget) && |looks| > 0 && InTime(looks, f.tail.budget.at)
    ensures var perMinute := f.tail.budget.perMinute;
            BytesRead(f, created, looks, nl) as real
            <= perMinute as real + Refill(perMinute, looks[|looks| - 1].now - looks[0].now)
  {
    RunIsMetered(f, created, looks, nl);
    MeteredBound(FollowAll(f, created, looks, nl).tail.budget, f.tail.budget.perMinute, looks[0].now,
                 BytesRead(f, created, looks, nl), looks[|looks| - 1].now);
  }

  // ---- And no less ----

  function Least(a: real, b: real): real { if a < b then a else b }

  /** A minute refills the budget, whatever was spent. */
  lemma FullAgain(b: Budget, now: real)
    requires Within(b) && b.at + 60.0 <= now
    ensures Available(At(b, now)) == b.perMinute
  {
    assert Refill(b.perMinute, now - b.at) >= b.perMinute as real by {
      RefillAdds(b.perMinute, 60.0, now - b.at - 60.0);
      RefillIsNotNegative(b.perMinute, now - b.at - 60.0);
    }
  }

  /** With what was read since, no less may be read than the budget held and was
      refilled, up to a minute's worth. */
  ghost predicate Refilled(b: Budget, perMinute: nat, tokens: real, at: real, read: nat) {
    && Within(b) && b.perMinute == perMinute && at <= b.at
    && b.tokens + read as real >= Least(perMinute as real, tokens + Refill(perMinute, b.at - at))
  }

  lemma RefilledOn(b: Budget, perMinute: nat, tokens: real, at: real, read: nat, now: real)
    requires Refilled(b, perMinute, tokens, at, read) && b.at <= now
    ensures Refilled(At(b, now), perMinute, tokens, at, read)
  {
    StaysWithin(b, now);
    RefillIsNotNegative(perMinute, now - b.at);
    if now > b.at {
      RefillAdds(perMinute, b.at - at, now - b.at);
    }
  }

  lemma {:induction false} RunRefills<T>(f: Followed<T>, created: nat, looks: seq<Look<T>>, nl: T -> bool)
    requires Within(f.tail.budget) && InTime(looks, f.tail.budget.at)
    ensures var b, g := f.tail.budget, FollowAll(f, created, looks, nl).tail.budget;
            && Refilled(g, b.perMinute, b.tokens, b.at, BytesRead(f, created, looks, nl))
            && (|looks| > 0 ==> g.at <= looks[|looks| - 1].now)
  {
    var b := f.tail.budget;
    if |looks| > 0 {
      var n := |looks| - 1;
      RunRefills(f, created, looks[..n], nl);
      OneLookMore(f, created, looks, nl);
      LookRefills(FollowAll(f, created, looks[..n], nl), created, looks[n], nl, b.perMinute, b.tokens, b.at,
                  BytesRead(f, created, looks[..n], nl));
    } else {
      NothingRefilled(b);
    }
  }

  lemma OneLookMore<T>(f: Followed<T>, created: nat, looks: seq<Look<T>>, nl: T -> bool)
    requires Within(f.tail.budget) && |looks| > 0
    ensures var n := |looks| - 1;
            var (t, polled) := LooksAt(FollowAll(f, created, looks[..n], nl), created, looks[n], nl);
            && FollowAll(f, created, looks, nl).tail.budget == t.budget
            && BytesRead(f, created, looks, nl) == BytesRead(f, created, looks[..n], nl) + polled.read
  {
  }

  lemma NothingRefilled(b: Budget)
    requires Within(b)
    ensures Refilled(b, b.perMinute, b.tokens, b.at, 0)
  {
  }

  lemma LookRefills<T>(f: Followed<T>, created: nat, look: Look<T>, nl: T -> bool, perMinute: nat, tokens: real, at: real,
                       read: nat)
    requires Within(f.tail.budget) && Refilled(f.tail.budget, perMinute, tokens, at, read) && f.tail.budget.at <= look.now
    ensures var (t, polled) := LooksAt(f, created, look, nl);
            Refilled(t.budget, perMinute, tokens, at, read + polled.read) && t.budget.at <= look.now
  {
    LookSpends(f, created, look, nl);
    if look.meta {
      var b, more := f.tail.budget, LooksAt(f, created, look, nl).1.read;
      RefilledOn(b, perMinute, tokens, at, read, look.now);
      RefilledSpent(At(b, look.now), perMinute, tokens, at, read, more, LooksAt(f, created, look, nl).0.budget);
    }
  }

  lemma RefilledSpent(b: Budget, perMinute: nat, tokens: real, at: real, read: nat, more: nat, after: Budget)
    requires Refilled(b, perMinute, tokens, at, read) && Within(after) && after == b.(tokens := b.tokens - more as real)
    ensures Refilled(after, perMinute, tokens, at, read + more)
  {
  }

  /** What may be read at `now`, and what was read since the budget was `from`, are no less
      than it held then and time refilled, up to a minute's worth. */
  ghost predicate NoLess(b: Budget, now: real, from: Budget, read: nat) {
    At(b, now).tokens + read as real >= Least(from.perMinute as real, from.tokens + Refill(from.perMinute, now - from.at))
  }

  lemma RefilledAt(b: Budget, from: Budget, read: nat, now: real)
    requires Refilled(b, from.perMinute, from.tokens, from.at, read) && b.at <= now
    ensures NoLess(b, now, from, read)
  {
    RefilledOn(b, from.perMinute, from.tokens, from.at, read, now);
  }

  /** After any looks in order of time the budget is no less than they leave of it. */
  lemma NeverLessThanTheRefill<T>(f: Followed<T>, created: nat, looks: seq<Look<T>>, now: real, nl: T -> bool)
    requires Within(f.tail.budget) && InTime(looks, f.tail.budget.at) && f.tail.budget.at <= now
    requires |looks| > 0 ==> looks[|looks| - 1].now <= now
    ensures NoLess(FollowAll(f, created, looks, nl).tail.budget, now, f.tail.budget, BytesRead(f, created, looks, nl))
  {
    RunRefills(f, created, looks, nl);
    RefilledAt(FollowAll(f, created, looks, nl).tail.budget, f.tail.budget, BytesRead(f, created, looks, nl), now);
  }

  // ---- What one look reads and passes ----

  /** What of `waits` bytes is passed over: what is more than a minute's worth. */
  function Excess(perMinute: nat, waits: nat): nat { if waits > perMinute then waits - perMinute else 0 }

  /** A look at a readable log that was not made anew reads what waits, but no more than a
      minute's worth, the newest, and no more than may be read now. It gives out lines of
      all it reads, except that the rest of a line whose start was passed over is passed
      over too, to its newline. */
  lemma LookReads<T>(t: Tail<T>, meta: Meta, file: seq<T>, now: real, nl: T -> bool)
    requires Within(t.budget) && !Anew(t, meta) && meta.len <= |file|
    ensures var (m, polled) := Poll(t, Some(meta), Some(file), now, nl);
            var waits, may := meta.len - t.pos, Available(At(t.budget, now));
            var excess := Excess(t.budget.perMinute, waits);
            && polled.read == (if waits - excess < may then waits - excess else may)
            && m.pos == t.pos + excess + polled.read
            && var bytes, cut := file[t.pos + excess..m.pos], t.midLine || excess > 0;
               && (m.midLine <==> cut && FirstNewline(bytes, nl) == |bytes|)
               && Skipped(polled.chunks) == (if excess > 0 then excess + |t.partial| else 0) + RestOfCut(cut, bytes, nl)
  {
    var a := t.(created := if meta.created.Some? then meta.created else t.created);
    var (b, skipped) := SkipOver(a, meta.len);
    PollIs(t, meta, file, now, nl);
    SkippedOver(a, meta.len);
    ReadsOn(b, meta.len, file, now, nl);
    SkippedAdds(skipped, ReadOn(b, meta.len, Some(file), now, nl).1.chunks);
  }

  lemma PollIs<T>(t: Tail<T>, meta: Meta, file: seq<T>, now: real, nl: T -> bool)
    requires Within(t.budget) && !Anew(t, meta)
    ensures var (b, skipped) := SkipOver(t.(created := if meta.created.Some? then meta.created else t.created), meta.len);
            var (m, polled) := ReadOn(b, meta.len, Some(file), now, nl);
            Poll(t, Some(meta), Some(file), now, nl) == (m, Polled(skipped + polled.chunks, polled.read))
  {
  }

  /** What is read on after passing over what is too much. */
  lemma ReadsOn<T>(t: Tail<T>, len: nat, file: seq<T>, now: real, nl: T -> bool)
    requires Within(t.budget) && t.pos <= len <= |file|
    ensures var (m, polled) := ReadOn(t, len, Some(file), now, nl);
            var waits, may := len - t.pos, Available(At(t.budget, now));
            && polled.read == (if waits < may then waits else may)
            && m.pos == t.pos + polled.read
            && var bytes := file[t.pos..m.pos];
               && Skipped(polled.chunks) == RestOfCut(t.midLine, bytes, nl)
               && (m.midLine <==> t.midLine && FirstNewline(bytes, nl) == |bytes|)
  {
    StaysWithin(t.budget, now);
    var want := Want(t, len, now);
    var bytes := Slice(file, t.pos, want);
    assert bytes == file[t.pos..t.pos + want];
    if want > 0 {
      SkippedIn(Past(t, |bytes|, now), bytes, nl);
    }
  }

  lemma SkippedOver<T>(t: Tail<T>, len: nat)
    requires t.pos <= len
    ensures var excess := Excess(t.budget.perMinute, len - t.pos);
            var (b, skipped) := SkipOver(t, len);
            && Skipped(skipped) == (if excess > 0 then excess + |t.partial| else 0)
            && b.pos == t.pos + excess && b.midLine == (t.midLine || excess > 0) && b.budget == t.budget
  {
  }

  /** What taking in bytes passes over: the rest of a line cut before. */
  function RestOfCut<T>(midLine: bool, bytes: seq<T>, nl: T -> bool): nat {
    var end := FirstNewline(bytes, nl);
    if !midLine then 0 else if end == |bytes| then |bytes| else end + 1
  }

  /** Bytes taken in are passed over only as the rest of a line cut. */
  ghost predicate PassesTheRest<T>(t: Tail<T>, bytes: seq<T>, r: (Tail<T>, seq<Chunk<T>>), nl: T -> bool) {
    && r.0.pos == t.pos && Skipped(r.1) == RestOfCut(t.midLine, bytes, nl)
    && (r.0.midLine <==> t.midLine && FirstNewline(bytes, nl) == |bytes|)
  }

  lemma SkippedIn<T>(t: Tail<T>, bytes: seq<T>, nl: T -> bool)
    ensures PassesTheRest(t, bytes, ReadIn(t, bytes, nl), nl)
  {
    var end := FirstNewline(bytes, nl);
    if !t.midLine {
      LinesSkipNone(t, bytes, nl);
    } else if end < |bytes| {
      SkippedToNewline(t, bytes, end, nl);
    } else {
      SkippedAll(t, bytes, nl);
    }
  }

  lemma SkippedAll<T>(t: Tail<T>, bytes: seq<T>, nl: T -> bool)
    requires t.midLine && FirstNewline(bytes, nl) == |bytes|
    ensures PassesTheRest(t, bytes, ReadIn(t, bytes, nl), nl)
  {
    SkippedOne<T>(|bytes|);
  }

  lemma SkippedOne<T>(count: nat)
    ensures Skipped<T>([]) == 0 && Skipped<T>([Passed(count)]) == count
  {
    var one: seq<Chunk<T>> := [Passed(count)];
    assert one[..0] == [];
  }

  lemma ReadInIs<T>(t: Tail<T>, bytes: seq<T>, end: nat, nl: T -> bool)
    requires t.midLine && end == FirstNewline(bytes, nl) < |bytes|
    ensures var (m, more) := ReadLines(t.(midLine := false), bytes[end + 1..], nl);
            && ReadIn(t, bytes, nl) == (m, [Passed(end + 1)] + more) && m.pos == t.pos && !m.midLine
  {
  }

  lemma SkippedToNewline<T>(t: Tail<T>, bytes: seq<T>, end: nat, nl: T -> bool)
    requires t.midLine && end == FirstNewline(bytes, nl) < |bytes|
    ensures PassesTheRest(t, bytes, ReadIn(t, bytes, nl), nl)
  {
    var one: seq<Chunk<T>> := [Passed(end + 1)];
    var more := ReadLines(t.(midLine := false), bytes[end + 1..], nl).1;
    ReadInIs(t, bytes, end, nl);
    assert Skipped(one + more) == end + 1 by {
      LinesSkipNone(t.(midLine := false), bytes[end + 1..], nl);
      SkippedOne<T>(end + 1);
      SkippedAdds(one, more);
    }
  }

  lemma LinesSkipNone<T>(t: Tail<T>, bytes: seq<T>, nl: T -> bool)
    ensures Skipped(ReadLines(t, bytes, nl).1) == 0
  {
    var all := t.partial + bytes;
    EndedSkipNone(Lines(all, nl));
    SkippedAdds(Ended(Lines(all, nl)), Cut(Unfinished(all, nl)));
  }

  lemma {:induction false} EndedSkipNone<T>(lines: seq<seq<T>>)
    ensures Skipped(Ended(lines)) == 0
  {
    if |lines| > 0 {
      var n := |lines| - 1;
      EndedSkipNone(lines[..n]);
      assert Ended(lines)[..n] == Ended(lines[..n]);
    }
  }

  lemma {:induction false} SkippedAdds<T>(a: seq<Chunk<T>>, b: seq<Chunk<T>>)
    ensures Skipped(a + b) == Skipped(a) + Skipped(b)
    decreases |b|
  {
    if |b| == 0 {
      assert a + b == a;
    } else {
      var n := |b| - 1;
      assert (a + b)[..|a| + n] == a + b[..n];
      SkippedAdds(a, b[..n]);
    }
  }

  /** A file made anew is followed from its start, as one never read. */
  lemma ReadFromItsStart<T>(t: Tail<T>, meta: Meta, content: Option<seq<T>>, now: real, nl: T -> bool)
    requires Within(t.budget) && Anew(t, meta)
    ensures Poll(t, Some(meta), content, now, nl)
            == Poll(Tail(0, if meta.created.Some? then meta.created else t.created, [], false, t.budget), Some(meta), content, now, nl)
  {
  }

  /** A minute after the last look at a log that only grows, a look that can read it reads
      to its end, and so nothing of it waits longer than that; no line is passed over for
      want of budget if no more than a minute's worth came. */
  lemma NothingWaitsLong<T(!new)>(f: Followed<T>, start: nat, created: nat, looks: seq<Look<T>>, look: Look<T>, nl: T -> bool)
    requires Fresh(f, start, created) && |looks| > 0 && InTime(looks, f.tail.budget.at)
    requires looks[|looks| - 1].now + 60.0 <= look.now && look.meta && look.read
    ensures var g := FollowAll(f, created, looks, nl);
            var seen, (m, polled) := g.file + look.more, LooksAt(g, created, look, nl);
            && g.tail.pos <= |seen| == m.pos
            && (|seen| - g.tail.pos <= f.tail.budget.perMinute && !g.tail.midLine ==> Skipped(polled.chunks) == 0)
  {
    var g := FollowAll(f, created, looks, nl);
    EveryByteOnce(f, start, created, looks, nl);
    Unchanged(f, created, looks, nl);
    RunRefills(f, created, looks, nl);
    FullAgain(g.tail.budget, look.now);
    LookReads(g.tail, Meta(|g.file + look.more|, if look.dated then Some(created) else None), g.file + look.more + look.later,
              look.now, nl);
  }
}
