/** What following a log that only grows gives out: every byte once, as a line or as
    passed over, and whole lines unless one is too long. */
module LogAccounts {
  import opened Protocol
  import opened LogTail

  // ---- Lines ----

  lemma {:induction false} UnfinishedHasNone<T>(s: seq<T>, nl: T -> bool)
    ensures NoNewline(Unfinished(s, nl), nl)
  {
    if |s| > 0 {
      UnfinishedHasNone(s[..|s| - 1], nl);
    }
  }

  /** `s` up to its last newline. */
  function Finished<T>(s: seq<T>, nl: T -> bool): seq<T> {
    if |s| == 0 || nl(s[|s| - 1]) then s else Finished(s[..|s| - 1], nl)
  }

  lemma {:induction false} FinishedAndNot<T>(s: seq<T>, nl: T -> bool)
    ensures Finished(s, nl) + Unfinished(s, nl) == s
  {
    if |s| > 0 && !nl(s[|s| - 1]) {
      var n := |s| - 1;
      FinishedAndNot(s[..n], nl);
      assert Finished(s[..n], nl) + (Unfinished(s[..n], nl) + [s[n]]) == s[..n] + [s[n]];
    }
  }

  lemma {:induction false} NoLines<T>(s: seq<T>, nl: T -> bool)
    requires NoNewline(s, nl)
    ensures Lines(s, nl) == [] && Unfinished(s, nl) == s
  {
    if |s| > 0 {
      var n := |s| - 1;
      NoLines(s[..n], nl);
      assert s == s[..n] + [s[n]];
    }
  }

  lemma ByteMore<T>(s: seq<T>, x: T, nl: T -> bool)
    ensures Lines(s + [x], nl) == if nl(x) then Lines(s, nl) + [Unfinished(s, nl)] else Lines(s, nl)
    ensures Unfinished(s + [x], nl) == if nl(x) then [] else Unfinished(s, nl) + [x]
  {
    assert (s + [x])[..|s|] == s;
  }

  /** Splitting into lines does not depend on how the bytes came: what is unfinished
      is split again with what follows. */
  lemma {:induction false} LinesInPieces<T>(a: seq<T>, b: seq<T>, nl: T -> bool)
    ensures Lines(a + b, nl) == Lines(a, nl) + Lines(Unfinished(a, nl) + b, nl)
    ensures Unfinished(a + b, nl) == Unfinished(Unfinished(a, nl) + b, nl)
    decreases |b|
  {
    var rest := Unfinished(a, nl);
    if |b| == 0 {
      UnfinishedHasNone(a, nl);
      NoLines(rest, nl);
      assert a + b == a && rest + b == rest;
    } else {
      var front, x := b[..|b| - 1], b[|b| - 1];
      LinesInPieces(a, front, nl);
      assert b == front + [x];
      Associates(a, front, [x]);
      Associates(rest, front, [x]);
      ByteMore(a + front, x, nl);
      ByteMore(rest + front, x, nl);
      Associates(Lines(a, nl), Lines(rest + front, nl), [Unfinished(rest + front, nl)]);
    }
  }

  // ---- Accounting ----

  function Size<T>(c: Chunk<T>): nat {
    match c
    case Given(bytes, ended) => |bytes| + if ended then 1 else 0
    case Passed(count) => count
  }

  /** After `chunks` that end with `bytes`, a line may begin: nothing was cut here
      by passing over its start. */
  ghost predicate Clean<T>(chunks: seq<Chunk<T>>, bytes: seq<T>, nl: T -> bool) {
    |chunks| > 0 && chunks[|chunks| - 1].Passed? ==> |bytes| > 0 && nl(bytes[|bytes| - 1])
  }

  /** A chunk of exactly these bytes. */
  ghost predicate Spells<T>(c: Chunk<T>, bytes: seq<T>, nl: T -> bool) {
    && |bytes| == Size(c)
    && match c
       case Passed(count) => count > 0
       case Given(line, ended) =>
         && NoNewline(line, nl) && line == bytes[..|line|]
         && if ended then nl(bytes[|line|]) else |line| > LONGEST_LINE
  }

  /** The chunks tile the bytes, each spelling its own; a line begins only where one
      may. */
  ghost predicate Tiles<T>(chunks: seq<Chunk<T>>, bytes: seq<T>, nl: T -> bool)
    decreases |chunks|
  {
    if |chunks| == 0 then |bytes| == 0
    else
      var n := |chunks| - 1;
      var at := |bytes| - Size(chunks[n]);
      && 0 <= at
      && Tiles(chunks[..n], bytes[..at], nl)
      && Spells(chunks[n], bytes[at..], nl)
      && (chunks[n].Given? ==> Clean(chunks[..n], bytes[..at], nl))
  }

  lemma TilesOneMore<T>(chunks: seq<Chunk<T>>, bytes: seq<T>, c: Chunk<T>, more: seq<T>, nl: T -> bool)
    requires Tiles(chunks, bytes, nl) && Spells(c, more, nl)
    requires c.Given? ==> Clean(chunks, bytes, nl)
    ensures Tiles(chunks + [c], bytes + more, nl)
  {
    assert (chunks + [c])[..|chunks|] == chunks;
    assert (bytes + more)[..|bytes|] == bytes && (bytes + more)[|bytes|..] == more;
  }

  lemma EndedOneMore<T>(chunks: seq<Chunk<T>>, lines: seq<seq<T>>, line: seq<T>)
    ensures chunks + Ended(lines + [line]) == chunks + Ended(lines) + [Given(line, true)]
  {
  }

  /** Giving out the complete lines of `s`. */
  lemma {:induction false} LinesTile<T>(chunks: seq<Chunk<T>>, bytes: seq<T>, s: seq<T>, nl: T -> bool)
    requires Tiles(chunks, bytes, nl) && Clean(chunks, bytes, nl)
    ensures Tiles(chunks + Ended(Lines(s, nl)), bytes + Finished(s, nl), nl)
    ensures Clean(chunks + Ended(Lines(s, nl)), bytes + Finished(s, nl), nl)
    decreases |s|
  {
    if |s| == 0 {
      assert chunks + Ended(Lines(s, nl)) == chunks && bytes + s == bytes;
    } else {
      var n := |s| - 1;
      LinesTile(chunks, bytes, s[..n], nl);
      if nl(s[n]) {
        UnfinishedHasNone(s[..n], nl);
        EndLine(chunks + Ended(Lines(s[..n], nl)), bytes + Finished(s[..n], nl), Unfinished(s[..n], nl), s[n], nl);
        EndedOneMore(chunks, Lines(s[..n], nl), Unfinished(s[..n], nl));
        FinishedLine(bytes, s, nl);
      }
    }
  }

  lemma FinishedLine<T>(bytes: seq<T>, s: seq<T>, nl: T -> bool)
    requires |s| > 0
    ensures var n := |s| - 1;
            bytes + Finished(s[..n], nl) + (Unfinished(s[..n], nl) + [s[n]]) == bytes + s
  {
    var n := |s| - 1;
    FinishedAndNot(s[..n], nl);
    Inside(bytes, Finished(s[..n], nl), Unfinished(s[..n], nl), [s[n]]);
    assert s[..n] + [s[n]] == s;
  }

  lemma Inside<X>(a: seq<X>, b: seq<X>, c: seq<X>, d: seq<X>)
    ensures a + b + (c + d) == a + (b + c + d)
  {
  }

  lemma EndLine<T>(chunks: seq<Chunk<T>>, bytes: seq<T>, line: seq<T>, end: T, nl: T -> bool)
    requires Tiles(chunks, bytes, nl) && Clean(chunks, bytes, nl)
    requires NoNewline(line, nl) && nl(end)
    ensures Tiles(chunks + [Given(line, true)], bytes + (line + [end]), nl)
    ensures Clean(chunks + [Given(line, true)], bytes + (line + [end]), nl)
  {
    TilesOneMore(chunks, bytes, Given(line, true), line + [end], nl);
  }

  // ---- Following a log that only grows ----

  /** One look: what was added before it, whether the file could be looked at and
      said when it was created, what was added before it was opened, and whether it
      could be read. */
  datatype Look<T> = Look(now: real, more: seq<T>, meta: bool, dated: bool, later: seq<T>, read: bool)

  /** What was followed so far: the tail, the file, and all that the looks gave. */
  datatype Followed<T> = Followed(tail: Tail<T>, file: seq<T>, chunks: seq<Chunk<T>>)

  function LooksAt<T>(f: Followed<T>, created: nat, look: Look<T>, nl: T -> bool): (Tail<T>, Polled<T>)
    requires Within(f.tail.budget)
  {
    Poll(f.tail,
         if look.meta then Some(Meta(|f.file + look.more|, if look.dated then Some(created) else None)) else None,
         if look.read then Some(f.file + look.more + look.later) else None,
         look.now, nl)
  }

  function Follow<T>(f: Followed<T>, created: nat, look: Look<T>, nl: T -> bool): (g: Followed<T>)
    requires Within(f.tail.budget)
    ensures Within(g.tail.budget)
  {
    var (t, polled) := LooksAt(f, created, look, nl);
    Followed(t, f.file + look.more + look.later, f.chunks + polled.chunks)
  }

  function FollowAll<T>(f: Followed<T>, created: nat, looks: seq<Look<T>>, nl: T -> bool): (g: Followed<T>)
    requires Within(f.tail.budget)
    ensures Within(g.tail.budget)
  {
    if |looks| == 0 then f
    else Follow(FollowAll(f, created, looks[..|looks| - 1], nl), created, looks[|looks| - 1], nl)
  }

  /** Every byte from `start` on was given out or passed over once, up to the line
      not finished. */
  ghost predicate Accounted<T(!new)>(f: Followed<T>, start: nat, created: nat, nl: T -> bool) {
    && Within(f.tail.budget)
    && (f.tail.created.Some? ==> f.tail.created.value == created)
    && SoFar(f.tail.pos, f.tail.partial, f.tail.midLine, f.file, f.chunks, start, nl)
  }

  ghost predicate SoFar<T(!new)>(pos: nat, partial: seq<T>, midLine: bool, file: seq<T>, chunks: seq<Chunk<T>>,
                                 start: nat, nl: T -> bool) {
    && start <= pos <= |file|
    && exists done :: file[start..pos] == done + partial && Parts(partial, midLine, chunks, done, nl)
  }

  /** What was given out and passed over is `done`; the rest is a line not finished. */
  ghost predicate Parts<T>(partial: seq<T>, midLine: bool, chunks: seq<Chunk<T>>, done: seq<T>, nl: T -> bool) {
    && NoNewline(partial, nl) && |partial| <= LONGEST_LINE
    && Tiles(chunks, done, nl)
    && if midLine then |partial| == 0 else Clean(chunks, done, nl)
  }

  lemma SkipParts<T>(t: Tail<T>, len: nat, chunks: seq<Chunk<T>>, done: seq<T>, passed: seq<T>, nl: T -> bool)
    returns (now: seq<T>)
    requires t.pos <= len && Parts(t.partial, t.midLine, chunks, done, nl)
    requires |passed| == SkipOver(t, len).0.pos - t.pos
    ensures Parts(SkipOver(t, len).0.partial, SkipOver(t, len).0.midLine, chunks + SkipOver(t, len).1, now, nl)
    ensures now + SkipOver(t, len).0.partial == done + t.partial + passed
  {
    var (m, more) := SkipOver(t, len);
    if |more| == 0 {
      assert chunks + more == chunks;
      now := done;
      assert done + t.partial + passed == done + m.partial;
    } else {
      TilesOneMore(chunks, done, more[0], t.partial + passed, nl);
      now := done + (t.partial + passed);
      assert now + m.partial == done + t.partial + passed;
    }
  }

  lemma ReadParts<T>(t: Tail<T>, bytes: seq<T>, chunks: seq<Chunk<T>>, done: seq<T>, nl: T -> bool) returns (now: seq<T>)
    requires Parts(t.partial, t.midLine, chunks, done, nl)
    ensures Parts(ReadIn(t, bytes, nl).0.partial, ReadIn(t, bytes, nl).0.midLine, chunks + ReadIn(t, bytes, nl).1, now, nl)
    ensures now + ReadIn(t, bytes, nl).0.partial == done + t.partial + bytes
  {
    var end := FirstNewline(bytes, nl);
    if !t.midLine {
      now := LineParts(t, bytes, chunks, done, nl);
    } else if end == |bytes| {
      now := done + bytes;
      PassParts(t, bytes, chunks, done, nl);
      assert now + t.partial == done + t.partial + bytes;
    } else {
      var u := t.(midLine := false);
      PassToNewline(t, bytes, chunks, done, nl);
      now := LineParts(u, bytes[end + 1..], chunks + [Passed(end + 1)], done + bytes[..end + 1], nl);
      Associates(chunks, [Passed(end + 1)], ReadLines(u, bytes[end + 1..], nl).1);
      Resplit(done, t.partial, bytes, end + 1);
    }
  }

  lemma Resplit<X>(a: seq<X>, none: seq<X>, b: seq<X>, k: nat)
    requires |none| == 0 && k <= |b|
    ensures a + b[..k] + none + b[k..] == a + none + b
  {
    assert b[..k] + b[k..] == b && a + none == a && a + b[..k] + none == a + b[..k];
    Associates(a, b[..k], b[k..]);
  }

  lemma PassToNewline<T>(t: Tail<T>, bytes: seq<T>, chunks: seq<Chunk<T>>, done: seq<T>, nl: T -> bool)
    requires Parts(t.partial, t.midLine, chunks, done, nl) && t.midLine && FirstNewline(bytes, nl) < |bytes|
    ensures var end := FirstNewline(bytes, nl);
            Parts(t.partial, false, chunks + [Passed(end + 1)], done + bytes[..end + 1], nl)
  {
    var end := FirstNewline(bytes, nl);
    TilesOneMore(chunks, done, Passed(end + 1), bytes[..end + 1], nl);
  }

  lemma PassParts<T>(t: Tail<T>, bytes: seq<T>, chunks: seq<Chunk<T>>, done: seq<T>, nl: T -> bool)
    requires Parts(t.partial, t.midLine, chunks, done, nl) && t.midLine && FirstNewline(bytes, nl) == |bytes|
    ensures Parts(t.partial, t.midLine, chunks + ReadIn(t, bytes, nl).1, done + bytes, nl)
  {
    if |bytes| == 0 {
      assert chunks + [] == chunks && done + bytes == done;
    } else {
      TilesOneMore(chunks, done, Passed(|bytes|), bytes, nl);
    }
  }

  lemma LineParts<T>(t: Tail<T>, bytes: seq<T>, chunks: seq<Chunk<T>>, done: seq<T>, nl: T -> bool) returns (now: seq<T>)
    requires Parts(t.partial, t.midLine, chunks, done, nl) && !t.midLine
    ensures Parts(ReadLines(t, bytes, nl).0.partial, ReadLines(t, bytes, nl).0.midLine, chunks + ReadLines(t, bytes, nl).1, now, nl)
    ensures now + ReadLines(t, bytes, nl).0.partial == done + t.partial + bytes
  {
    var all := t.partial + bytes;
    LinesTile(chunks, done, all, nl);
    now := RestParts(chunks + Ended(Lines(all, nl)), done + Finished(all, nl), Unfinished(all, nl), nl) by {
      UnfinishedHasNone(all, nl);
    }
    Associates(chunks, Ended(Lines(all, nl)), Cut(Unfinished(all, nl)));
    Together(done, t.partial, bytes, nl);
  }

  lemma Together<T>(done: seq<T>, partial: seq<T>, bytes: seq<T>, nl: T -> bool)
    ensures done + Finished(partial + bytes, nl) + Unfinished(partial + bytes, nl) == done + partial + bytes
  {
    FinishedAndNot(partial + bytes, nl);
    Associates(done, Finished(partial + bytes, nl), Unfinished(partial + bytes, nl));
    Associates(done, partial, bytes);
  }

  /** The line not finished is kept, or cut when it is too long. */
  lemma RestParts<T>(given: seq<Chunk<T>>, done: seq<T>, rest: seq<T>, nl: T -> bool) returns (now: seq<T>)
    requires Tiles(given, done, nl) && Clean(given, done, nl) && NoNewline(rest, nl)
    ensures var left := if |rest| > LONGEST_LINE then [] else rest;
            Parts(left, false, given + Cut(rest), now, nl) && now + left == done + rest
  {
    if |rest| > LONGEST_LINE {
      TilesOneMore(given, done, Given(rest, false), rest, nl);
      now := done + rest;
      assert now + [] == now;
    } else {
      now := done;
      assert given + Cut(rest) == given;
    }
  }

  lemma GrowsSoFar<T(!new)>(t: Tail<T>, file: seq<T>, more: seq<T>, chunks: seq<Chunk<T>>, start: nat, nl: T -> bool)
    requires SoFar(t.pos, t.partial, t.midLine, file, chunks, start, nl)
    ensures SoFar(t.pos, t.partial, t.midLine, file + more, chunks, start, nl)
  {
    assert (file + more)[start..t.pos] == file[start..t.pos];
  }

  lemma SkipSoFar<T(!new)>(t: Tail<T>, len: nat, file: seq<T>, chunks: seq<Chunk<T>>, start: nat, nl: T -> bool)
    requires SoFar(t.pos, t.partial, t.midLine, file, chunks, start, nl) && t.pos <= len <= |file|
    ensures var (m, more) := SkipOver(t, len);
            SoFar(m.pos, m.partial, m.midLine, file, chunks + more, start, nl)
  {
    var done :| file[start..t.pos] == done + t.partial && Parts(t.partial, t.midLine, chunks, done, nl);
    var m := SkipOver(t, len).0;
    var now := SkipParts(t, len, chunks, done, file[t.pos..m.pos], nl);
    assert file[start..m.pos] == file[start..t.pos] + file[t.pos..m.pos];
  }

  lemma ReadSoFar<T(!new)>(t: Tail<T>, bytes: seq<T>, file: seq<T>, chunks: seq<Chunk<T>>, start: nat, nl: T -> bool)
    requires |bytes| <= t.pos <= |file| && bytes == file[t.pos - |bytes|..t.pos]
    requires SoFar(t.pos - |bytes|, t.partial, t.midLine, file, chunks, start, nl)
    ensures var (m, more) := ReadIn(t, bytes, nl);
            SoFar(m.pos, m.partial, m.midLine, file, chunks + more, start, nl)
  {
    var from := t.pos - |bytes|;
    var done :| file[start..from] == done + t.partial && Parts(t.partial, t.midLine, chunks, done, nl);
    var now := ReadParts(t, bytes, chunks, done, nl);
    assert file[start..t.pos] == file[start..from] + bytes;
  }

  lemma ReadOnSoFar<T(!new)>(t: Tail<T>, len: nat, file: seq<T>, read: bool, now: real, chunks: seq<Chunk<T>>, start: nat, nl: T -> bool)
    requires Within(t.budget) && t.pos <= len <= |file|
    requires SoFar(t.pos, t.partial, t.midLine, file, chunks, start, nl)
    ensures var (m, polled) := ReadOn(t, len, if read then Some(file) else None, now, nl);
            SoFar(m.pos, m.partial, m.midLine, file, chunks + polled.chunks, start, nl)
  {
    var want := Want(t, len, now);
    if want == 0 || !read {
      assert chunks + [] == chunks;
    } else {
      var bytes := Slice(file, t.pos, want);
      assert bytes == file[t.pos..t.pos + |bytes|];
      ReadSoFar(Past(t, |bytes|, now), bytes, file, chunks, start, nl);
    }
  }

  lemma PollSoFar<T(!new)>(t: Tail<T>, meta: Meta, file: seq<T>, read: bool, now: real, chunks: seq<Chunk<T>>, start: nat, nl: T -> bool)
    requires Within(t.budget) && meta.len <= |file| && !Anew(t, meta)
    requires SoFar(t.pos, t.partial, t.midLine, file, chunks, start, nl)
    ensures var (m, polled) := Poll(t, Some(meta), if read then Some(file) else None, now, nl);
            SoFar(m.pos, m.partial, m.midLine, file, chunks + polled.chunks, start, nl)
  {
    var a := t.(created := if meta.created.Some? then meta.created else t.created);
    var (b, skipped) := SkipOver(a, meta.len);
    SkipSoFar(a, meta.len, file, chunks, start, nl);
    ReadOnSoFar(b, meta.len, file, read, now, chunks + skipped, start, nl);
    Associates(chunks, skipped, ReadOn(b, meta.len, if read then Some(file) else None, now, nl).1.chunks);
  }

  lemma FollowAccounts<T(!new)>(f: Followed<T>, start: nat, created: nat, look: Look<T>, nl: T -> bool)
    requires Accounted(f, start, created, nl)
    ensures Accounted(Follow(f, created, look, nl), start, created, nl)
  {
    var seen := f.file + look.more;
    var file := seen + look.later;
    LookDates(f, created, look, nl);
    GrowsSoFar(f.tail, f.file, look.more, f.chunks, start, nl);
    GrowsSoFar(f.tail, seen, look.later, f.chunks, start, nl);
    if look.meta {
      PollSoFar(f.tail, Meta(|seen|, if look.dated then Some(created) else None), file, look.read, look.now, f.chunks, start, nl);
    } else {
      assert f.chunks + [] == f.chunks;
    }
  }

  /** Nothing read yet, from `start` on: as a log is first followed, after it was
      passed over, and when it was made anew. */
  predicate Fresh<T>(f: Followed<T>, start: nat, created: nat) {
    && Within(f.tail.budget) && f.tail.pos == start <= |f.file|
    && |f.tail.partial| == 0 && !f.tail.midLine && |f.chunks| == 0
    && (f.tail.created.Some? ==> f.tail.created.value == created)
  }

  /** Following a log that only grows, however it grew between looks and whatever
      could not be looked at or read: every byte from `start` to where the tail
      stands was given out in a line or passed over, once and in order, or is of a
      line not finished; a line given out is whole unless it was too long, and never
      the rest of one whose start was passed over. */
  lemma {:induction false} EveryByteOnce<T(!new)>(f: Followed<T>, start: nat, created: nat, looks: seq<Look<T>>, nl: T -> bool)
    requires Fresh(f, start, created)
    ensures Accounted(FollowAll(f, created, looks, nl), start, created, nl)
  {
    if |looks| == 0 {
      assert f.file[start..start] == [] + f.tail.partial && Parts(f.tail.partial, f.tail.midLine, f.chunks, [], nl);
    } else {
      EveryByteOnce(f, start, created, looks[..|looks| - 1], nl);
      FollowAccounts(FollowAll(f, created, looks[..|looks| - 1], nl), start, created, looks[|looks| - 1], nl);
    }
  }

  /** A log is followed from its end: of what it held before nothing is given. A file that
      could not be looked at then is followed from its start. */
  lemma FollowedFromItsEnd<T>(file: seq<T>, meta: Option<Meta>, perMinute: nat, now: real, created: nat)
    requires meta.Some? ==> meta.value.len == |file| && (meta.value.created.Some? ==> meta.value.created.value == created)
    ensures Fresh(Followed(FromEnd(meta, perMinute, now), file, []), if meta.Some? then |file| else 0, created)
    ensures Available(FromEnd<T>(meta, perMinute, now).budget) == perMinute
  {
  }

  /** So is one that was passed over, from where it stood. */
  lemma PassedToItsEnd<T>(t: Tail<T>, file: seq<T>, meta: Meta, created: nat)
    requires Within(t.budget) && meta.len == |file| && (meta.created.Some? ==> meta.created.value == created)
    ensures Fresh(Followed(SkipToEnd(t, Some(meta)), file, []), |file|, created)
    ensures SkipToEnd(t, Some(meta)).budget == t.budget
  {
  }

  /** A look that says when the file was created is remembered, through looks that do not:
      so a file of another date is taken for made anew whenever it is next looked at. */
  lemma {:induction false} RemembersItsDate<T>(f: Followed<T>, created: nat, looks: seq<Look<T>>, i: nat, meta: Meta, nl: T -> bool)
    requires Within(f.tail.budget) && (f.tail.created.Some? ==> f.tail.created.value == created)
    requires i < |looks| && looks[i].meta && looks[i].dated
    ensures var t := FollowAll(f, created, looks, nl).tail;
            && t.created == Some(created)
            && (meta.created.Some? && meta.created.value != created ==> Anew(t, meta))
    decreases |looks|
  {
    var n := |looks| - 1;
    LooksDate(f, created, looks[..n], nl);
    if i < n {
      RemembersItsDate(f, created, looks[..n], i, meta, nl);
    }
    LookDates(FollowAll(f, created, looks[..n], nl), created, looks[n], nl);
  }

  lemma LookDates<T>(f: Followed<T>, created: nat, look: Look<T>, nl: T -> bool)
    requires Within(f.tail.budget)
    ensures Follow(f, created, look, nl).tail.created == if look.meta && look.dated then Some(created) else f.tail.created
  {
    if look.meta {
      var meta := Meta(|f.file + look.more|, if look.dated then Some(created) else None);
      var a := if Anew(f.tail, meta) then FromItsStart(f.tail) else f.tail;
      var b := SkipOver(a.(created := if meta.created.Some? then meta.created else f.tail.created), meta.len).0;
      ReadDates(b, meta.len, if look.read then Some(f.file + look.more + look.later) else None, look.now, nl);
    }
  }

  lemma ReadDates<T>(t: Tail<T>, len: nat, content: Option<seq<T>>, now: real, nl: T -> bool)
    requires Within(t.budget) && t.pos <= len
    ensures ReadOn(t, len, content, now, nl).0.created == t.created
  {
  }

  lemma {:induction false} LooksDate<T>(f: Followed<T>, created: nat, looks: seq<Look<T>>, nl: T -> bool)
    requires Within(f.tail.budget) && (f.tail.created.Some? ==> f.tail.created.value == created)
    ensures var t := FollowAll(f, created, looks, nl).tail; t.created.Some? ==> t.created.value == created
  {
    if |looks| > 0 {
      var n := |looks| - 1;
      LooksDate(f, created, looks[..n], nl);
      LookDates(FollowAll(f, created, looks[..n], nl), created, looks[n], nl);
    }
  }

  // ---- The bytes add up ----

  /** Bytes given out as lines, their newlines included. */
  function GivenOut<T>(chunks: seq<Chunk<T>>): nat {
    if |chunks| == 0 then 0
    else
      var last := chunks[|chunks| - 1];
      GivenOut(chunks[..|chunks| - 1]) + if last.Given? then Size(last) else 0
  }

  lemma {:induction false} TilesAddUp<T>(chunks: seq<Chunk<T>>, bytes: seq<T>, nl: T -> bool)
    requires Tiles(chunks, bytes, nl)
    ensures GivenOut(chunks) + Skipped(chunks) == |bytes|
    decreases |chunks|
  {
    if |chunks| > 0 {
      var n := |chunks| - 1;
      TilesAddUp(chunks[..n], bytes[..|bytes| - Size(chunks[n])], nl);
    }
  }

  lemma BytesAddUp<T(!new)>(f: Followed<T>, start: nat, created: nat, looks: seq<Look<T>>, nl: T -> bool)
    requires Fresh(f, start, created)
    ensures var g := FollowAll(f, created, looks, nl);
            GivenOut(g.chunks) + Skipped(g.chunks) + |g.tail.partial| == g.tail.pos - start <= |g.file| - start
  {
    EveryByteOnce(f, start, created, looks, nl);
    var g := FollowAll(f, created, looks, nl);
    var done :| g.file[start..g.tail.pos] == done + g.tail.partial && Parts(g.tail.partial, g.tail.midLine, g.chunks, done, nl);
    TilesAddUp(g.chunks, done, nl);
    assert |g.file[start..g.tail.pos]| == g.tail.pos - start;
  }

  // ---- Exactly the lines ----

  ghost predicate ShortLines<T>(s: seq<T>, nl: T -> bool) {
    forall i, j :: 0 <= i <= j <= |s| && NoneIn(s, i, j, nl) ==> j - i <= LONGEST_LINE
  }

  ghost predicate NoneIn<T>(s: seq<T>, i: int, j: int, nl: T -> bool)
    requires 0 <= i <= j <= |s|
  {
    forall k :: i <= k < j ==> !nl(s[k])
  }

  function ShownLines<T, L>(lines: seq<seq<T>>, show: seq<T> -> Option<L>): seq<L> {
    if |lines| == 0 then [] else ShownLines(lines[..|lines| - 1], show) + ShownLine(lines[|lines| - 1], show)
  }

  lemma ShortInside<T>(s: seq<T>, from: nat, to: nat, nl: T -> bool)
    requires ShortLines(s, nl) && from <= to <= |s|
    ensures ShortLines(s[from..to], nl)
  {
    forall i, j | 0 <= i <= j <= to - from && NoneIn(s[from..to], i, j, nl) ensures j - i <= LONGEST_LINE {
      assert forall k :: from + i <= k < from + j ==> s[k] == s[from..to][k - from];
      assert NoneIn(s, from + i, from + j, nl);
    }
  }

  lemma LineOfItsOwn<T>(bytes: seq<T>, line: seq<T>, end: T, nl: T -> bool)
    requires |Unfinished(bytes, nl)| == 0 && NoNewline(line, nl) && nl(end)
    ensures Lines(bytes + (line + [end]), nl) == Lines(bytes, nl) + [line]
    ensures |Unfinished(bytes + (line + [end]), nl)| == 0
  {
    var all := line + [end];
    NoLines(line, nl);
    assert all[..|line|] == line;
    LinesInPieces(bytes, all, nl);
    assert Unfinished(bytes, nl) + all == all;
    assert Lines(all, nl) == [] + [line];
  }

  lemma SpelledLine<T>(c: Chunk<T>, bytes: seq<T>, nl: T -> bool) returns (end: T)
    requires Spells(c, bytes, nl) && c.Given? && c.ended
    ensures bytes == c.bytes + [end] && nl(end) && NoNewline(c.bytes, nl)
  {
    end := bytes[|c.bytes|];
  }

  lemma CutLineIsLong<T>(c: Chunk<T>, bytes: seq<T>, at: nat, nl: T -> bool)
    requires at <= |bytes| && Spells(c, bytes[at..], nl) && c.Given? && !c.ended
    ensures !ShortLines(bytes, nl)
  {
    assert forall k :: at <= k < |bytes| ==> bytes[k] == bytes[at..][k - at] == c.bytes[k - at];
    assert NoneIn(bytes, at, |bytes|, nl);
  }

  lemma {:induction false} TilesOfLines<T, L>(chunks: seq<Chunk<T>>, bytes: seq<T>, nl: T -> bool, show: seq<T> -> Option<L>)
    requires Tiles(chunks, bytes, nl) && Skipped(chunks) == 0 && ShortLines(bytes, nl)
    ensures Shown(chunks, show) == ShownLines(Lines(bytes, nl), show) && |Unfinished(bytes, nl)| == 0
    decreases |chunks|
  {
    if |chunks| > 0 {
      var n := |chunks| - 1;
      var c, at := chunks[n], |bytes| - Size(chunks[n]);
      var before := bytes[..at];
      if c.Given? && !c.ended {
        CutLineIsLong(c, bytes, at, nl);
      }
      ShortInside(bytes, 0, at, nl);
      assert bytes[0..at] == before;
      TilesOfLines(chunks[..n], before, nl, show);
      var end := SpelledLine(c, bytes[at..], nl);
      assert bytes == before + (c.bytes + [end]);
      LineOfItsOwn(before, c.bytes, end, nl);
      assert (Lines(before, nl) + [c.bytes])[..|Lines(before, nl)|] == Lines(before, nl);
    }
  }

  lemma NoLineAfter<T>(bytes: seq<T>, rest: seq<T>, nl: T -> bool)
    requires |Unfinished(bytes, nl)| == 0 && NoNewline(rest, nl)
    ensures Lines(bytes + rest, nl) == Lines(bytes, nl) && Unfinished(bytes + rest, nl) == rest
  {
    NoLines(rest, nl);
    LinesInPieces(bytes, rest, nl);
    assert Unfinished(bytes, nl) + rest == rest;
  }

  lemma PartsOfLines<T, L>(partial: seq<T>, midLine: bool, chunks: seq<Chunk<T>>, done: seq<T>, nl: T -> bool, show: seq<T> -> Option<L>)
    requires Parts(partial, midLine, chunks, done, nl)
    requires Skipped(chunks) == 0 && ShortLines(done, nl)
    ensures Shown(chunks, show) == ShownLines(Lines(done + partial, nl), show) && partial == Unfinished(done + partial, nl)
  {
    TilesOfLines(chunks, done, nl, show);
    NoLineAfter(done, partial, nl);
  }

  /** When nothing was skipped and no line read is too long, the lines given are exactly
      the complete lines from the start on, those that are blank left out, and the
      unfinished one is kept: however the log's growth fell between the looks. */
  lemma ExactlyTheLines<T(!new), L>(f: Followed<T>, start: nat, created: nat, looks: seq<Look<T>>, nl: T -> bool,
                                    show: seq<T> -> Option<L>)
    requires Fresh(f, start, created)
    requires var g := FollowAll(f, created, looks, nl);
             start <= g.tail.pos <= |g.file| ==> Skipped(g.chunks) == 0 && ShortLines(g.file[start..g.tail.pos], nl)
    ensures var g := FollowAll(f, created, looks, nl);
            && start <= g.tail.pos <= |g.file|
            && Shown(g.chunks, show) == ShownLines(Lines(g.file[start..g.tail.pos], nl), show)
            && g.tail.partial == Unfinished(g.file[start..g.tail.pos], nl)
  {
    EveryByteOnce(f, start, created, looks, nl);
    var g := FollowAll(f, created, looks, nl);
    SoFarOfLines(g.tail, g.file, g.chunks, start, nl, show);
  }

  lemma SoFarOfLines<T(!new), L>(t: Tail<T>, file: seq<T>, chunks: seq<Chunk<T>>, start: nat, nl: T -> bool, show: seq<T> -> Option<L>)
    requires SoFar(t.pos, t.partial, t.midLine, file, chunks, start, nl)
    requires Skipped(chunks) == 0 && ShortLines(file[start..t.pos], nl)
    ensures Shown(chunks, show) == ShownLines(Lines(file[start..t.pos], nl), show)
    ensures t.partial == Unfinished(file[start..t.pos], nl)
  {
    var done :| file[start..t.pos] == done + t.partial && Parts(t.partial, t.midLine, chunks, done, nl);
    assert file[start..t.pos][0..|done|] == done;
    ShortInside(file[start..t.pos], 0, |done|, nl);
    PartsOfLines(t.partial, t.midLine, chunks, done, nl, show);
  }
}
