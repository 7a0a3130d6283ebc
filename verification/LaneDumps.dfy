/** The lane dumps in a game's hook.log, read back from its lines
    (tools/lane_diff.py, `read_dumps`). Dumps are kept in the order they began, those
    of the checkpoint at hand with it, and referred to by their place. */
module LaneDumps {
  import opened Protocol

  datatype Key = Summary | Err | Row(name: string)

  /** A line as it parses: an entry of a lane at a step, a checkpoint's trailer, or
      anything else. */
  datatype Line =
    | Entry(lane: nat, step: nat, key: Key, rest: string)
    | Trailer(step: nat, lanes: seq<nat>, written: nat, leftOut: nat)
    | Other

  datatype BatchIssue = TrailerMissing | NoRows | Miscounted(written: nat, captured: nat) | LeftOut(count: nat)

  datatype Dump = Dump(lane: nat, step: nat, entries: seq<(Key, string)>, summary: Option<string>,
                       error: Option<string>, closed: bool, batchIssues: seq<BatchIssue>)

  datatype At = At(lane: int, step: int)

  function Place(d: Dump): At { At(d.lane, d.step) }

  /** The dumps of the checkpoint being read. */
  datatype Batch = Batch(step: nat, lanes: set<nat>, dumps: seq<Dump>)

  datatype Reading = Reading(dumps: seq<Dump>, open: map<At, int>, batch: Option<Batch>)

  const START := Reading([], map[], None)

  // ---- What the lines say ----

  /** The entries of one lane, in order. */
  function LaneEntries(lines: seq<Line>, lane: nat): seq<(Key, string)> {
    if lines == [] then []
    else
      var last := lines[|lines| - 1];
      if last.Entry? && last.lane == lane then LaneEntries(lines[..|lines| - 1], lane) + [(last.key, last.rest)]
      else LaneEntries(lines[..|lines| - 1], lane)
  }

  function EntryCount(lines: seq<Line>): nat {
    if lines == [] then 0 else EntryCount(lines[..|lines| - 1]) + if lines[|lines| - 1].Entry? then 1 else 0
  }

  /** Lines of one checkpoint: no trailer, and entries of no other step. */
  predicate OneCheckpoint(lines: seq<Line>, step: nat) {
    forall i :: 0 <= i < |lines| ==> !lines[i].Trailer? && (lines[i].Entry? ==> lines[i].step == step)
  }

  /** The lines a dump's checkpoint was read from. */
  datatype Span = Span(from: nat, to: nat)

  /** Its checkpoint ended with a trailer of its step that counts every entry read
      and says that nothing was left out, and the lane was captured. */
  predicate Certified(lines: seq<Line>, d: Dump, s: Span)
    requires s.from <= s.to <= |lines|
  {
    && s.to < |lines| && lines[s.to].Trailer? && lines[s.to].step == d.step
    && lines[s.to].written == EntryCount(lines[s.from..s.to]) && lines[s.to].leftOut == 0
    && d.entries != []
  }

  /** A summary or an error ends a capture, and is what the dump holds of it. */
  predicate EndsRight(d: Dump) {
    && (forall i :: 0 <= i < |d.entries| - 1 ==> d.entries[i].0.Row?)
    && (d.closed <==> d.entries != [] && !d.entries[|d.entries| - 1].0.Row?)
    && d.summary == (if d.closed && d.entries[|d.entries| - 1].0.Summary? then Some(d.entries[|d.entries| - 1].1) else None)
    && d.error == (if d.closed && d.entries[|d.entries| - 1].0.Err? then Some(d.entries[|d.entries| - 1].1) else None)
  }

  /** The dump is what the lines of its checkpoint say of its lane, and has no issue
      with its checkpoint exactly when this is certified. */
  predicate Recorded(lines: seq<Line>, d: Dump, s: Span) {
    && s.from <= s.to <= |lines|
    && OneCheckpoint(lines[s.from..s.to], d.step)
    && d.entries == LaneEntries(lines[s.from..s.to], d.lane)
    && EndsRight(d)
    && (d.batchIssues == [] <==> Certified(lines, d, s))
  }

  // ---- While reading ----

  /** What was read of the checkpoint at hand: one dump for each lane so far, those
      not ended open. */
  ghost predicate Members(open: map<At, int>, b: Batch, read: seq<Line>) {
    && OneCheckpoint(read, b.step)
    && Captured(b.dumps, b.step, read)
    && LanesOf(b.lanes, b.dumps, read)
    && OpenOnes(open, b.dumps)
    && Total(b.dumps) == EntryCount(read)
  }

  ghost predicate Captured(dumps: seq<Dump>, step: nat, read: seq<Line>) {
    && (forall k :: 0 <= k < |dumps| ==>
          && dumps[k].step == step && dumps[k].batchIssues == [] && dumps[k].entries != []
          && dumps[k].entries == LaneEntries(read, dumps[k].lane) && EndsRight(dumps[k]))
    && (forall j, k :: 0 <= j < k < |dumps| ==> dumps[j].lane != dumps[k].lane)
  }

  ghost predicate LanesOf(lanes: set<nat>, dumps: seq<Dump>, read: seq<Line>) {
    && (forall lane :: lane in lanes <==> LaneEntries(read, lane) != [])
    && (forall k :: 0 <= k < |dumps| ==> dumps[k].lane in lanes)
    && (forall lane <- lanes :: exists k :: 0 <= k < |dumps| && dumps[k].lane == lane)
  }

  ghost predicate OpenOnes(open: map<At, int>, dumps: seq<Dump>) {
    && (forall k :: 0 <= k < |dumps| ==>
          if dumps[k].closed then Place(dumps[k]) !in open
          else Place(dumps[k]) in open && open[Place(dumps[k])] == k)
    && (forall at <- open :: 0 <= open[at] < |dumps| && Place(dumps[open[at]]) == at)
  }

  function Total(dumps: seq<Dump>): nat {
    if dumps == [] then 0 else Total(dumps[..|dumps| - 1]) + |dumps[|dumps| - 1].entries|
  }

  predicate Finished(lines: seq<Line>, dumps: seq<Dump>, spans: seq<Span>) {
    |dumps| == |spans| && forall k :: 0 <= k < |dumps| ==> Recorded(lines, dumps[k], spans[k])
  }

  /** Checkpoints follow each other. */
  predicate Ordered(spans: seq<Span>, end: nat) {
    && (forall k :: 0 <= k < |spans| ==> spans[k].from <= spans[k].to <= end)
    && (forall j, k :: 0 <= j < k < |spans| ==> spans[j] == spans[k] || spans[j].to <= spans[k].from)
  }

  /** Each lane a trailer names has a dump of the checkpoint it ends. */
  predicate Requested(lines: seq<Line>, end: nat, dumps: seq<Dump>, spans: seq<Span>)
    requires |dumps| == |spans| && end <= |lines|
  {
    forall i :: 0 <= i < end && lines[i].Trailer? ==> forall lane <- lines[i].lanes :: HasDump(dumps, spans, lane, i)
  }

  predicate HasDump(dumps: seq<Dump>, spans: seq<Span>, lane: nat, end: nat)
    requires |dumps| == |spans|
  {
    exists k :: 0 <= k < |dumps| && dumps[k].lane == lane && spans[k].to == end
  }

  /** Every entry before `end` is in the lines of a dump of its lane, and two dumps of
      one checkpoint that hold entries are of different lanes. */
  predicate Sifted(lines: seq<Line>, end: nat, dumps: seq<Dump>, spans: seq<Span>)
    requires |dumps| == |spans| && end <= |lines|
  {
    && (forall i :: 0 <= i < end && lines[i].Entry? ==> HoldsLine(dumps, spans, lines[i].lane, i))
    && (forall j, k :: 0 <= j < k < |dumps| && spans[j] == spans[k] && dumps[j].entries != [] && dumps[k].entries != [] ==>
          dumps[j].lane != dumps[k].lane)
  }

  predicate HoldsLine(dumps: seq<Dump>, spans: seq<Span>, lane: nat, i: nat)
    requires |dumps| == |spans|
  {
    exists k :: 0 <= k < |dumps| && dumps[k].lane == lane && spans[k].from <= i < spans[k].to
  }

  /** The checkpoints that ended before `from`, while reading stands at `i`. */
  ghost predicate Before(lines: seq<Line>, i: nat, dumps: seq<Dump>, spans: seq<Span>, from: nat) {
    && from <= i <= |lines|
    && Finished(lines, dumps, spans) && Ordered(spans, from) && Requested(lines, i, dumps, spans)
    && Sifted(lines, from, dumps, spans)
    && Total(dumps) == EntryCount(lines[..from])
  }

  ghost predicate Valid(lines: seq<Line>, i: nat, r: Reading, spans: seq<Span>, from: nat) {
    match r.batch
    case Some(b) => Before(lines, i, r.dumps, spans, from) && Members(r.open, b, lines[from..i])
    case None => Before(lines, i, r.dumps, spans, from) && r.open == map[] && from == i
  }

  // ---- The end of a checkpoint ----

  function WithIssues(dumps: seq<Dump>, to: nat, issues: seq<BatchIssue>): seq<Dump> {
    seq(|dumps|, k requires 0 <= k < |dumps| =>
      if k < to then dumps[k].(batchIssues := dumps[k].batchIssues + issues) else dumps[k])
  }

  /** Ends a checkpoint: each of its dumps has these issues, and none is open. */
  method Close(dumps: seq<Dump>, open: map<At, int>, issues: seq<BatchIssue>)
    returns (closed: seq<Dump>, left: map<At, int>)
    ensures closed == WithIssues(dumps, |dumps|, issues)
    ensures forall at <- left :: at in open && forall k :: 0 <= k < |dumps| ==> Place(dumps[k]) != at
  {
    closed, left := dumps, open;
    for j := 0 to |dumps|
      invariant closed == WithIssues(dumps, j, issues)
      invariant forall at <- left :: at in open && forall k :: 0 <= k < j ==> Place(dumps[k]) != at
    {
      closed := closed[j := closed[j].(batchIssues := closed[j].batchIssues + issues)];
      left := left - {Place(closed[j])};
    }
  }

  lemma TotalParts(a: seq<Dump>, b: seq<Dump>)
    ensures Total(a + b) == Total(a) + Total(b)
    decreases |b|
  {
    if b == [] {
      assert a + b == a;
    } else {
      var n := |b| - 1;
      assert (a + b)[..|a| + n] == a + b[..n];
      TotalParts(a, b[..n]);
    }
  }

  lemma TotalSame(a: seq<Dump>, b: seq<Dump>)
    requires |a| == |b| && forall k :: 0 <= k < |a| ==> |a[k].entries| == |b[k].entries|
    ensures Total(a) == Total(b)
  {
    if a != [] {
      TotalSame(a[..|a| - 1], b[..|b| - 1]);
    }
  }

  lemma CountParts(a: seq<Line>, b: seq<Line>)
    ensures EntryCount(a + b) == EntryCount(a) + EntryCount(b)
    decreases |b|
  {
    if b == [] {
      assert a + b == a;
    } else {
      var n := |b| - 1;
      assert (a + b)[..|a| + n] == a + b[..n];
      CountParts(a, b[..n]);
    }
  }

  /** Whether a line ends the checkpoint at hand with what it says of it. */
  predicate EndsCheckpoint(lines: seq<Line>, i: nat, step: nat) {
    i < |lines| && lines[i].Trailer? && lines[i].step == step
  }

  /** Whether the checkpoint of these lines was written out whole. */
  predicate CountsRight(lines: seq<Line>, from: nat, i: nat, step: nat)
    requires from <= i <= |lines|
  {
    EndsCheckpoint(lines, i, step) && lines[i].written == EntryCount(lines[from..i]) && lines[i].leftOut == 0
  }

  lemma CapturedIsRecorded(lines: seq<Line>, i: nat, from: nat, open: map<At, int>, b: Batch, issues: seq<BatchIssue>, k: nat)
    requires from <= i <= |lines| && Members(open, b, lines[from..i]) && k < |b.dumps|
    requires issues == [] <==> CountsRight(lines, from, i, b.step)
    ensures Recorded(lines, b.dumps[k].(batchIssues := b.dumps[k].batchIssues + issues), Span(from, i))
  {
  }

  lemma AllRecorded(lines: seq<Line>, i: nat, from: nat, open: map<At, int>, b: Batch, issues: seq<BatchIssue>)
    requires from <= i <= |lines| && Members(open, b, lines[from..i])
    requires issues == [] <==> CountsRight(lines, from, i, b.step)
    ensures Finished(lines, WithIssues(b.dumps, |b.dumps|, issues), seq(|b.dumps|, _ => Span(from, i)))
  {
    forall k | 0 <= k < |b.dumps|
      ensures Recorded(lines, b.dumps[k].(batchIssues := b.dumps[k].batchIssues + issues), Span(from, i))
    {
      CapturedIsRecorded(lines, i, from, open, b, issues, k);
    }
  }

  lemma FinishedParts(lines: seq<Line>, a: seq<Dump>, b: seq<Dump>, spansA: seq<Span>, spansB: seq<Span>)
    requires Finished(lines, a, spansA) && Finished(lines, b, spansB)
    ensures Finished(lines, a + b, spansA + spansB)
  {
  }

  function Ended(r: Reading, issues: seq<BatchIssue>): Reading
    requires r.batch.Some?
  {
    Reading(r.dumps + WithIssues(r.batch.value.dumps, |r.batch.value.dumps|, issues), map[], None)
  }

  function MoreSpans(spans: seq<Span>, count: nat, from: nat, i: nat): seq<Span> { spans + seq(count, _ => Span(from, i)) }

  lemma RequestedStill(lines: seq<Line>, end: nat, dumps: seq<Dump>, spans: seq<Span>, more: seq<Dump>, moreSpans: seq<Span>)
    requires |dumps| == |spans| && |more| == |moreSpans| && end <= |lines| && Requested(lines, end, dumps, spans)
    ensures Requested(lines, end, dumps + more, spans + moreSpans)
  {
    forall i, lane | 0 <= i < end && lines[i].Trailer? && lane in lines[i].lanes
      ensures HasDump(dumps + more, spans + moreSpans, lane, i)
    {
      assert HasDump(dumps, spans, lane, i);
      var k :| 0 <= k < |dumps| && dumps[k].lane == lane && spans[k].to == i;
      assert (dumps + more)[k] == dumps[k] && (spans + moreSpans)[k] == spans[k];
    }
  }

  /** A line that is an entry is one of its lane's. */
  lemma {:induction false} EntryIsThere(read: seq<Line>, i: nat)
    requires i < |read| && read[i].Entry?
    ensures (read[i].key, read[i].rest) in LaneEntries(read, read[i].lane)
  {
    var n := |read| - 1;
    if i < n {
      EntryIsThere(read[..n], i);
    }
  }

  lemma SiftedStill(lines: seq<Line>, end: nat, dumps: seq<Dump>, spans: seq<Span>, more: seq<Dump>, moreSpans: seq<Span>)
    requires |dumps| == |spans| && |more| == |moreSpans| && end <= |lines| && Sifted(lines, end, dumps, spans)
    ensures forall i :: 0 <= i < end && lines[i].Entry? ==> HoldsLine(dumps + more, spans + moreSpans, lines[i].lane, i)
  {
    forall i | 0 <= i < end && lines[i].Entry? ensures HoldsLine(dumps + more, spans + moreSpans, lines[i].lane, i) {
      assert HoldsLine(dumps, spans, lines[i].lane, i);
      var k :| 0 <= k < |dumps| && dumps[k].lane == lines[i].lane && spans[k].from <= i < spans[k].to;
      assert (dumps + more)[k] == dumps[k] && (spans + moreSpans)[k] == spans[k];
    }
  }

  /** The checkpoint that ends sifts its own lines. */
  lemma SiftedMore(lines: seq<Line>, i: nat, r: Reading, spans: seq<Span>, from: nat, issues: seq<BatchIssue>)
    requires Valid(lines, i, r, spans, from) && r.batch.Some?
    ensures |Ended(r, issues).dumps| == |MoreSpans(spans, |r.batch.value.dumps|, from, i)|
    ensures Sifted(lines, i, Ended(r, issues).dumps, MoreSpans(spans, |r.batch.value.dumps|, from, i))
  {
    var b := r.batch.value;
    var more, here := WithIssues(b.dumps, |b.dumps|, issues), seq(|b.dumps|, _ => Span(from, i));
    SiftedStill(lines, from, r.dumps, spans, more, here);
    forall j | from <= j < i && lines[j].Entry? ensures HoldsLine(r.dumps + more, spans + here, lines[j].lane, j) {
      LineHasDump(lines, i, from, b, j);
      HoldsHere(r.dumps, spans, b.dumps, issues, lines[j].lane, from, i, j);
    }
    NewLanesDiffer(lines, i, r.dumps, spans, from, more, b.dumps);
  }

  lemma HoldsHere(dumps: seq<Dump>, spans: seq<Span>, ended: seq<Dump>, issues: seq<BatchIssue>, lane: nat, from: nat, i: nat,
                  j: nat)
    requires |dumps| == |spans| && from <= j < i && exists k :: 0 <= k < |ended| && ended[k].lane == lane
    ensures HoldsLine(dumps + WithIssues(ended, |ended|, issues), spans + seq(|ended|, _ => Span(from, i)), lane, j)
  {
    var more, here := WithIssues(ended, |ended|, issues), seq(|ended|, _ => Span(from, i));
    var k :| 0 <= k < |ended| && ended[k].lane == lane;
    assert (dumps + more)[|dumps| + k].lane == lane && (spans + here)[|dumps| + k] == Span(from, i);
  }

  lemma LineHasDump(lines: seq<Line>, i: nat, from: nat, b: Batch, j: nat)
    requires from <= j < i <= |lines| && lines[j].Entry? && LanesOf(b.lanes, b.dumps, lines[from..i])
    ensures exists k :: 0 <= k < |b.dumps| && b.dumps[k].lane == lines[j].lane
  {
    var read := lines[from..i];
    assert read[j - from] == lines[j];
    EntryIsThere(read, j - from);
    LaneHasDump(b, read, lines[j].lane);
  }

  lemma LaneHasDump(b: Batch, read: seq<Line>, lane: nat)
    requires LanesOf(b.lanes, b.dumps, read) && LaneEntries(read, lane) != []
    ensures exists k :: 0 <= k < |b.dumps| && b.dumps[k].lane == lane
  {
  }

  lemma NewLanesDiffer(lines: seq<Line>, i: nat, dumps: seq<Dump>, spans: seq<Span>, from: nat, more: seq<Dump>, read: seq<Dump>)
    requires from <= i <= |lines| && Finished(lines, dumps, spans) && Ordered(spans, from) && Sifted(lines, from, dumps, spans)
    requires |more| == |read| && forall k :: 0 <= k < |more| ==> more[k].lane == read[k].lane && more[k].entries == read[k].entries
    requires forall j, k :: 0 <= j < k < |read| ==> read[j].lane != read[k].lane
    ensures var all, s := dumps + more, spans + seq(|more|, _ => Span(from, i));
            forall j, k :: 0 <= j < k < |all| && s[j] == s[k] && all[j].entries != [] && all[k].entries != [] ==>
              all[j].lane != all[k].lane
  {
    var all, s := dumps + more, spans + seq(|more|, _ => Span(from, i));
    forall j, k | 0 <= j < k < |all| && s[j] == s[k] && all[j].entries != [] && all[k].entries != []
      ensures all[j].lane != all[k].lane
    {
      if j < |dumps| <= k {
        EarlierHasNone(lines, dumps, spans, from, i, j);
      }
    }
  }

  /** A dump recorded before these lines has none of them. */
  lemma EarlierHasNone(lines: seq<Line>, dumps: seq<Dump>, spans: seq<Span>, from: nat, i: nat, j: nat)
    requires from <= i <= |lines| && Finished(lines, dumps, spans) && Ordered(spans, from)
    requires j < |dumps| && spans[j] == Span(from, i)
    ensures dumps[j].entries == []
  {
    assert Recorded(lines, dumps[j], spans[j]);
    assert lines[from..i] == [];
  }

  /** Dumps without entries change nothing of it. */
  lemma SiftedEmpty(lines: seq<Line>, end: nat, dumps: seq<Dump>, spans: seq<Span>, more: seq<Dump>, moreSpans: seq<Span>)
    requires |dumps| == |spans| && |more| == |moreSpans| && end <= |lines| && Sifted(lines, end, dumps, spans)
    requires forall k :: 0 <= k < |more| ==> more[k].entries == []
    ensures Sifted(lines, end, dumps + more, spans + moreSpans)
  {
    SiftedStill(lines, end, dumps, spans, more, moreSpans);
  }

  lemma OrderedStill(spans: seq<Span>, count: nat, from: nat, i: nat, next: nat)
    requires Ordered(spans, from) || (Ordered(spans, i) && forall s <- spans :: s.to <= from || s == Span(from, i))
    requires from <= i <= next
    ensures Ordered(MoreSpans(spans, count, from, i), next)
    ensures forall s <- MoreSpans(spans, count, from, i) :: s.to <= from || s == Span(from, i)
  {
  }

  /** The checkpoints that ended before `end`. */
  predicate Ends(lines: seq<Line>, end: nat, dumps: seq<Dump>, spans: seq<Span>)
    requires end <= |lines|
  {
    Finished(lines, dumps, spans) && Total(dumps) == EntryCount(lines[..end])
  }

  /** Ending with issues that are none exactly when the checkpoint was written out
      whole. */
  lemma EndIsRecorded(lines: seq<Line>, i: nat, r: Reading, spans: seq<Span>, from: nat, issues: seq<BatchIssue>, next: nat)
    requires Valid(lines, i, r, spans, from) && r.batch.Some? && i <= next <= |lines| && EntryCount(lines[i..next]) == 0
    requires issues == [] <==> CountsRight(lines, from, i, r.batch.value.step)
    ensures Ends(lines, next, Ended(r, issues).dumps, MoreSpans(spans, |r.batch.value.dumps|, from, i))
  {
    var b := r.batch.value;
    var ended := WithIssues(b.dumps, |b.dumps|, issues);
    AllRecorded(lines, i, from, r.open, b, issues);
    FinishedParts(lines, r.dumps, ended, spans, seq(|b.dumps|, _ => Span(from, i)));
    TotalSame(ended, b.dumps);
    TotalParts(r.dumps, ended);
    CountOn(lines, from, i, next);
  }

  lemma CountOn(lines: seq<Line>, from: nat, i: nat, next: nat)
    requires from <= i <= next <= |lines|
    ensures EntryCount(lines[..next]) == EntryCount(lines[..from]) + EntryCount(lines[from..i]) + EntryCount(lines[i..next])
  {
    CountParts(lines[..from], lines[from..i]);
    assert lines[..from] + lines[from..i] == lines[..i];
    CountParts(lines[..i], lines[i..next]);
    assert lines[..i] + lines[i..next] == lines[..next];
  }

  lemma NoneOpen(open: map<At, int>, dumps: seq<Dump>, left: map<At, int>)
    requires OpenOnes(open, dumps)
    requires forall at <- left :: at in open && forall k :: 0 <= k < |dumps| ==> Place(dumps[k]) != at
    ensures left == map[]
  {
  }

  lemma WithoutTrailer(lines: seq<Line>, i: nat, r: Reading, spans: seq<Span>, from: nat)
    requires Valid(lines, i, r, spans, from) && r.batch.Some? && !EndsCheckpoint(lines, i, r.batch.value.step)
    ensures Valid(lines, i, Ended(r, [TrailerMissing]), MoreSpans(spans, |r.batch.value.dumps|, from, i), i)
  {
    var count := |r.batch.value.dumps|;
    EndIsRecorded(lines, i, r, spans, from, [TrailerMissing], i);
    OrderedStill(spans, count, from, i, i);
    RequestedStill(lines, i, r.dumps, spans, WithIssues(r.batch.value.dumps, count, [TrailerMissing]), seq(count, _ => Span(from, i)));
    SiftedMore(lines, i, r, spans, from, [TrailerMissing]);
  }

  /** A checkpoint left without its trailer. */
  method FinishWithoutTrailer(r: Reading, ghost lines: seq<Line>, ghost i: nat, ghost spans: seq<Span>, ghost from: nat)
    returns (done: Reading, ghost all: seq<Span>)
    requires Valid(lines, i, r, spans, from)
    requires r.batch.Some? ==> !EndsCheckpoint(lines, i, r.batch.value.step)
    ensures Valid(lines, i, done, all, i) && done.batch.None?
  {
    if r.batch.None? {
      return r, spans;
    }
    WithoutTrailer(lines, i, r, spans, from);
    var dumps, open := Close(r.batch.value.dumps, r.open, [TrailerMissing]);
    NoneOpen(r.open, r.batch.value.dumps, open);
    return Reading(r.dumps + dumps, open, None), MoreSpans(spans, |dumps|, from, i);
  }

  // ---- An entry ----

  /** A dump with one more entry. */
  function With(d: Dump, key: Key, rest: string): Dump {
    d.(entries := d.entries + [(key, rest)],
       summary := if key.Summary? then Some(rest) else d.summary,
       error := if key.Err? then Some(rest) else d.error,
       closed := d.closed || !key.Row?)
  }

  function Fresh(line: Line): Dump
    requires line.Entry?
  {
    With(Dump(line.lane, line.step, [], None, None, false, []), line.key, line.rest)
  }

  function NowOpen(open: map<At, int>, at: At, c: int, key: Key): map<At, int> {
    if key.Row? then open[at := c] else open - {at}
  }

  lemma WithEndsRight(d: Dump, key: Key, rest: string)
    requires EndsRight(d) && !d.closed
    ensures EndsRight(With(d, key, rest))
  {
    assert forall i :: 0 <= i < |d.entries| ==> d.entries[i].0.Row?;
  }

  lemma ReadOneMore(read: seq<Line>, line: Line, lane: nat)
    ensures EntryCount(read + [line]) == EntryCount(read) + if line.Entry? then 1 else 0
    ensures LaneEntries(read + [line], lane) ==
            if line.Entry? && line.lane == lane then LaneEntries(read, lane) + [(line.key, line.rest)] else LaneEntries(read, lane)
  {
    assert (read + [line])[..|read|] == read;
  }

  lemma ReadIt(read: seq<Line>, line: Line)
    requires line.Entry?
    ensures forall lane :: LaneEntries(read + [line], lane) ==
              if line.lane == lane then LaneEntries(read, lane) + [(line.key, line.rest)] else LaneEntries(read, lane)
  {
    forall lane: nat ensures LaneEntries(read + [line], lane) ==
        if line.lane == lane then LaneEntries(read, lane) + [(line.key, line.rest)] else LaneEntries(read, lane)
    {
      ReadOneMore(read, line, lane);
    }
  }

  lemma TotalUpdated(dumps: seq<Dump>, k: nat, d: Dump)
    requires k < |dumps|
    ensures Total(dumps[k := d]) == Total(dumps) - |dumps[k].entries| + |d.entries|
  {
    var n := |dumps| - 1;
    if k < n {
      assert dumps[k := d][..n] == dumps[..n][k := d];
      TotalUpdated(dumps[..n], k, d);
    } else {
      assert dumps[k := d][..n] == dumps[..n];
    }
  }

  lemma FirstCaptured(dumps: seq<Dump>, step: nat, read: seq<Line>, line: Line)
    requires Captured(dumps, step, read) && line.Entry? && line.step == step && LaneEntries(read, line.lane) == []
    ensures Captured(dumps + [Fresh(line)], step, read + [line])
  {
    ReadIt(read, line);
    WithEndsRight(Dump(line.lane, line.step, [], None, None, false, []), line.key, line.rest);
    assert forall k :: 0 <= k < |dumps| ==> dumps[k].lane != line.lane;
  }

  lemma MoreCaptured(dumps: seq<Dump>, step: nat, read: seq<Line>, line: Line, k: nat)
    requires Captured(dumps, step, read) && line.Entry? && k < |dumps|
    requires Place(dumps[k]) == At(line.lane, line.step) && !dumps[k].closed
    ensures Captured(dumps[k := With(dumps[k], line.key, line.rest)], step, read + [line])
  {
    ReadIt(read, line);
    WithEndsRight(dumps[k], line.key, line.rest);
  }

  lemma FirstOpen(open: map<At, int>, dumps: seq<Dump>, line: Line)
    requires OpenOnes(open, dumps) && line.Entry?
    requires forall k :: 0 <= k < |dumps| ==> dumps[k].lane != line.lane
    ensures OpenOnes(NowOpen(open, At(line.lane, line.step), |dumps|, line.key), dumps + [Fresh(line)])
  {
    assert Place(Fresh(line)) !in open;
  }

  lemma MoreOpen(open: map<At, int>, dumps: seq<Dump>, line: Line, k: nat)
    requires OpenOnes(open, dumps) && line.Entry? && k < |dumps|
    requires Place(dumps[k]) == At(line.lane, line.step) && !dumps[k].closed
    requires forall j :: 0 <= j < |dumps| && j != k ==> dumps[j].lane != line.lane
    ensures OpenOnes(NowOpen(open, At(line.lane, line.step), k, line.key), dumps[k := With(dumps[k], line.key, line.rest)])
  {
  }

  lemma LanesMore(lanes: set<nat>, dumps: seq<Dump>, more: seq<Dump>, read: seq<Line>, line: Line)
    requires LanesOf(lanes, dumps, read) && line.Entry?
    requires forall k :: 0 <= k < |more| ==> more[k].lane in lanes || more[k].lane == line.lane
    requires |dumps| <= |more| && forall k :: 0 <= k < |dumps| ==> more[k].lane == dumps[k].lane
    requires exists k :: 0 <= k < |more| && more[k].lane == line.lane
    ensures LanesOf(lanes + {line.lane}, more, read + [line])
  {
    ReadIt(read, line);
    forall lane <- lanes ensures exists k :: 0 <= k < |more| && more[k].lane == lane {
      var k :| 0 <= k < |dumps| && dumps[k].lane == lane;
      assert more[k].lane == lane;
    }
  }

  lemma CheckpointMore(read: seq<Line>, line: Line, step: nat)
    requires OneCheckpoint(read, step) && line.Entry? && line.step == step
    ensures OneCheckpoint(read + [line], step) && EntryCount(read + [line]) == EntryCount(read) + 1
  {
    ReadOneMore(read, line, 0);
  }

  /** A lane's first entry in its checkpoint. */
  lemma FirstOfLane(open: map<At, int>, b: Batch, read: seq<Line>, line: Line)
    requires Members(open, b, read)
    requires line.Entry? && line.step == b.step && line.lane !in b.lanes
    ensures Members(NowOpen(open, At(line.lane, line.step), |b.dumps|, line.key),
                    Batch(b.step, b.lanes + {line.lane}, b.dumps + [Fresh(line)]), read + [line])
  {
    FirstCaptured(b.dumps, b.step, read, line);
    FirstOpen(open, b.dumps, line);
    assert (b.dumps + [Fresh(line)])[|b.dumps|].lane == line.lane;
    LanesMore(b.lanes, b.dumps, b.dumps + [Fresh(line)], read, line);
    CheckpointMore(read, line, b.step);
    TotalParts(b.dumps, [Fresh(line)]);
  }

  /** Another entry of an open capture. */
  lemma MoreOfLane(open: map<At, int>, b: Batch, read: seq<Line>, line: Line, k: nat)
    requires Members(open, b, read)
    requires line.Entry? && k < |b.dumps| && Place(b.dumps[k]) == At(line.lane, line.step) && Place(b.dumps[k]) in open
    ensures Members(NowOpen(open, At(line.lane, line.step), k, line.key),
                    b.(dumps := b.dumps[k := With(b.dumps[k], line.key, line.rest)]), read + [line])
  {
    var more := b.dumps[k := With(b.dumps[k], line.key, line.rest)];
    MoreCaptured(b.dumps, b.step, read, line, k);
    MoreOpen(open, b.dumps, line, k);
    assert b.lanes + {line.lane} == b.lanes;
    assert more[k].lane == line.lane;
    LanesMore(b.lanes, b.dumps, more, read, line);
    CheckpointMore(read, line, b.step);
    TotalUpdated(b.dumps, k, With(b.dumps[k], line.key, line.rest));
  }

  lemma OneMoreLine(lines: seq<Line>, from: nat, i: nat)
    requires from <= i < |lines|
    ensures lines[from..i + 1] == lines[from..i] + [lines[i]]
  {
  }

  function Began(r: Reading, line: Line): Reading
    requires r.batch.Some? && line.Entry?
  {
    var b, at := r.batch.value, At(line.lane, line.step);
    Reading(r.dumps, NowOpen(r.open, at, |b.dumps|, line.key),
            Some(Batch(b.step, b.lanes + {line.lane}, b.dumps + [Fresh(line)])))
  }

  function Continued(r: Reading, line: Line, k: nat): Reading
    requires r.batch.Some? && line.Entry? && k < |r.batch.value.dumps|
  {
    var b := r.batch.value;
    r.(open := NowOpen(r.open, At(line.lane, line.step), k, line.key),
       batch := Some(b.(dumps := b.dumps[k := With(b.dumps[k], line.key, line.rest)])))
  }

  lemma ReadOn(lines: seq<Line>, i: nat, r: Reading, open: map<At, int>, b: Batch, spans: seq<Span>, from: nat)
    requires Valid(lines, i, r, spans, from) && i < |lines|
    requires Members(open, b, lines[from..i] + [lines[i]])
    ensures Valid(lines, i + 1, Reading(r.dumps, open, Some(b)), spans, from)
  {
    OneMoreLine(lines, from, i);
  }

  lemma BeganIsValid(lines: seq<Line>, i: nat, r: Reading, spans: seq<Span>, from: nat)
    requires Valid(lines, i, r, spans, from) && i < |lines| && lines[i].Entry?
    requires r.batch.Some? && lines[i].step == r.batch.value.step && lines[i].lane !in r.batch.value.lanes
    ensures Valid(lines, i + 1, Began(r, lines[i]), spans, from)
  {
    var b := r.batch.value;
    FirstOfLane(r.open, b, lines[from..i], lines[i]);
    var line := lines[i];
    ReadOn(lines, i, r, NowOpen(r.open, At(line.lane, line.step), |b.dumps|, line.key),
           Batch(b.step, b.lanes + {line.lane}, b.dumps + [Fresh(line)]), spans, from);
  }

  lemma ContinuedIsValid(lines: seq<Line>, i: nat, r: Reading, spans: seq<Span>, from: nat, k: nat)
    requires Valid(lines, i, r, spans, from) && i < |lines| && lines[i].Entry? && r.batch.Some?
    requires k < |r.batch.value.dumps| && Place(r.batch.value.dumps[k]) == At(lines[i].lane, lines[i].step)
    requires At(lines[i].lane, lines[i].step) in r.open
    ensures Valid(lines, i + 1, Continued(r, lines[i], k), spans, from)
  {
    var b := r.batch.value;
    MoreOfLane(r.open, b, lines[from..i], lines[i], k);
    var n := Continued(r, lines[i], k);
    ReadOn(lines, i, r, n.open, n.batch.value, spans, from);
  }

  lemma NothingRead(step: nat)
    ensures Members(map[], Batch(step, {}, []), [])
  {
  }

  /** Nothing read of a checkpoint yet. */
  lemma BeginsCheckpoint(lines: seq<Line>, i: nat, r: Reading, spans: seq<Span>, step: nat)
    requires Valid(lines, i, r, spans, i) && r.batch.None?
    ensures Valid(lines, i, r.(batch := Some(Batch(step, {}, []))), spans, i)
  {
    NothingRead(step);
    assert lines[i..i] == [] && r.dumps + [] == r.dumps;
  }

  method OnEntry(r: Reading, lane: nat, step: nat, key: Key, rest: string,
                 ghost lines: seq<Line>, ghost i: nat, ghost spans: seq<Span>, ghost from: nat)
    returns (next: Reading, ghost all: seq<Span>, ghost begun: nat)
    requires Valid(lines, i, r, spans, from) && i < |lines| && lines[i] == Entry(lane, step, key, rest)
    ensures Valid(lines, i + 1, next, all, begun)
  {
    var line := Entry(lane, step, key, rest);
    next, all, begun := r, spans, from;
    if At(lane, step) in r.open {
      var k := r.open[At(lane, step)];
      ContinuedIsValid(lines, i, r, spans, from, k);
      next := Continued(r, line, k);
      return;
    }
    if r.batch.Some? && (r.batch.value.step != step || lane in r.batch.value.lanes) {
      next, all := FinishWithoutTrailer(r, lines, i, spans, from);
      begun := i;
    }
    if next.batch.None? {
      BeginsCheckpoint(lines, i, next, all, step);
      next := next.(batch := Some(Batch(step, {}, [])));
    }
    BeganIsValid(lines, i, next, all, begun);
    next := Began(next, line);
  }

  // ---- A trailer ----

  function Missing(lane: nat, step: nat): Dump { Dump(lane, step, [], None, None, false, [NoRows]) }

  /** A dump for each lane its trailer names that nothing was captured of. */
  method AddMissing(step: nat, lanes: seq<nat>, captured: set<nat>) returns (missing: seq<Dump>)
    ensures forall k :: 0 <= k < |missing| ==> missing[k].lane !in captured && missing[k] == Missing(missing[k].lane, step)
    ensures forall lane <- lanes :: lane !in captured ==> Missing(lane, step) in missing
  {
    missing := [];
    for j := 0 to |lanes|
      invariant forall k :: 0 <= k < |missing| ==> missing[k].lane !in captured && missing[k] == Missing(missing[k].lane, step)
      invariant forall k :: 0 <= k < j ==> lanes[k] !in captured ==> Missing(lanes[k], step) in missing
    {
      if lanes[j] !in captured {
        missing := missing + [Missing(lanes[j], step)];
      }
    }
  }

  lemma MissingRecorded(lines: seq<Line>, i: nat, from: nat, open: map<At, int>, b: Batch, issues: seq<BatchIssue>, missing: seq<Dump>)
    requires from <= i <= |lines| && Members(open, b, lines[from..i])
    requires forall k :: 0 <= k < |missing| ==> missing[k].lane !in b.lanes && missing[k] == Missing(missing[k].lane, b.step)
    ensures Finished(lines, WithIssues(missing, |missing|, issues), seq(|missing|, _ => Span(from, i)))
    ensures Total(WithIssues(missing, |missing|, issues)) == 0
  {
    NoEntries(WithIssues(missing, |missing|, issues));
  }

  lemma NoEntries(dumps: seq<Dump>)
    requires forall k :: 0 <= k < |dumps| ==> dumps[k].entries == []
    ensures Total(dumps) == 0
  {
  }

  /** A checkpoint ended by its trailer. */
  method OnTrailer(r: Reading, step: nat, lanes: seq<nat>, written: nat, leftOut: nat,
                   ghost lines: seq<Line>, ghost i: nat, ghost spans: seq<Span>, ghost from: nat)
    returns (next: Reading, ghost all: seq<Span>)
    requires Valid(lines, i, r, spans, from) && i < |lines| && lines[i] == Trailer(step, lanes, written, leftOut)
    ensures Valid(lines, i + 1, next, all, i + 1) && next.batch.None?
  {
    next, all := r, spans;
    ghost var begun := from;
    if r.batch.Some? && r.batch.value.step != step {
      next, all := FinishWithoutTrailer(r, lines, i, spans, from);
      begun := i;
    }
    if next.batch.None? {
      BeginsCheckpoint(lines, i, next, all, step);
      next := next.(batch := Some(Batch(step, {}, [])));
    }
    var b := next.batch.value;
    var captured := Total(b.dumps);
    var issues := (if written != captured then [Miscounted(written, captured)] else [])
                  + (if leftOut != 0 then [LeftOut(leftOut)] else []);
    var missing := AddMissing(step, lanes, b.lanes);
    var dumps, open := Close(b.dumps, next.open, issues);
    NoneOpen(next.open, b.dumps, open);
    var absent, _ := Close(missing, map[], issues);
    TrailerIsRecorded(lines, i, next, all, begun, issues, missing);
    next := Reading(next.dumps + dumps + absent, open, None);
    all := MoreSpans(MoreSpans(all, |dumps|, begun, i), |absent|, begun, i);
  }

  lemma NoEntry(lines: seq<Line>, i: nat)
    requires i < |lines| && !lines[i].Entry?
    ensures EntryCount(lines[i..i + 1]) == 0
  {
    assert lines[i..i + 1] == [lines[i]] && [lines[i]][..0] == [];
  }

  /** The dumps when a trailer ended the checkpoint, and their spans. */
  function AllDumps(r: Reading, issues: seq<BatchIssue>, missing: seq<Dump>): seq<Dump>
    requires r.batch.Some?
  {
    Ended(r, issues).dumps + WithIssues(missing, |missing|, issues)
  }

  function AllSpans(r: Reading, spans: seq<Span>, missing: seq<Dump>, from: nat, i: nat): seq<Span>
    requires r.batch.Some?
  {
    MoreSpans(MoreSpans(spans, |r.batch.value.dumps|, from, i), |missing|, from, i)
  }

  lemma TrailerEnds(lines: seq<Line>, i: nat, r: Reading, spans: seq<Span>, from: nat, issues: seq<BatchIssue>, missing: seq<Dump>)
    requires Valid(lines, i, r, spans, from) && r.batch.Some? && EndsCheckpoint(lines, i, r.batch.value.step)
    requires issues == [] <==> CountsRight(lines, from, i, r.batch.value.step)
    requires forall k :: 0 <= k < |missing| ==>
               missing[k].lane !in r.batch.value.lanes && missing[k] == Missing(missing[k].lane, r.batch.value.step)
    ensures Ends(lines, i + 1, AllDumps(r, issues, missing), AllSpans(r, spans, missing, from, i))
  {
    NoEntry(lines, i);
    EndIsRecorded(lines, i, r, spans, from, issues, i + 1);
    MissingEnds(lines, i, from, r.open, r.batch.value, issues, missing, Ended(r, issues).dumps,
                MoreSpans(spans, |r.batch.value.dumps|, from, i));
  }

  lemma MissingEnds(lines: seq<Line>, i: nat, from: nat, open: map<At, int>, b: Batch, issues: seq<BatchIssue>,
                    missing: seq<Dump>, dumps: seq<Dump>, spans: seq<Span>)
    requires from <= i < |lines| && Members(open, b, lines[from..i]) && Ends(lines, i + 1, dumps, spans)
    requires forall k :: 0 <= k < |missing| ==> missing[k].lane !in b.lanes && missing[k] == Missing(missing[k].lane, b.step)
    ensures Ends(lines, i + 1, dumps + WithIssues(missing, |missing|, issues), MoreSpans(spans, |missing|, from, i))
  {
    MissingRecorded(lines, i, from, open, b, issues, missing);
    EndsMore(lines, i + 1, dumps, spans, WithIssues(missing, |missing|, issues), seq(|missing|, _ => Span(from, i)));
  }

  lemma EndsMore(lines: seq<Line>, end: nat, dumps: seq<Dump>, spans: seq<Span>, more: seq<Dump>, moreSpans: seq<Span>)
    requires end <= |lines| && Ends(lines, end, dumps, spans) && Finished(lines, more, moreSpans) && Total(more) == 0
    ensures Ends(lines, end, dumps + more, spans + moreSpans)
  {
    FinishedParts(lines, dumps, more, spans, moreSpans);
    TotalParts(dumps, more);
  }

  lemma TrailerOrdered(r: Reading, spans: seq<Span>, from: nat, i: nat, missing: seq<Dump>)
    requires r.batch.Some? && Ordered(spans, from) && from <= i
    ensures Ordered(AllSpans(r, spans, missing, from, i), i + 1)
  {
    OrderedStill(spans, |r.batch.value.dumps|, from, i, i);
    OrderedStill(MoreSpans(spans, |r.batch.value.dumps|, from, i), |missing|, from, i, i + 1);
  }

  lemma TrailerRequested(lines: seq<Line>, i: nat, r: Reading, spans: seq<Span>, from: nat, issues: seq<BatchIssue>, missing: seq<Dump>)
    requires Valid(lines, i, r, spans, from) && r.batch.Some? && EndsCheckpoint(lines, i, r.batch.value.step)
    requires forall lane <- lines[i].lanes :: lane !in r.batch.value.lanes ==> Missing(lane, r.batch.value.step) in missing
    ensures |AllDumps(r, issues, missing)| == |AllSpans(r, spans, missing, from, i)|
    ensures Requested(lines, i + 1, AllDumps(r, issues, missing), AllSpans(r, spans, missing, from, i))
  {
    var b := r.batch.value;
    RequestedStill(lines, i, r.dumps, spans, WithIssues(b.dumps, |b.dumps|, issues), seq(|b.dumps|, _ => Span(from, i)));
    RequestedStill(lines, i, Ended(r, issues).dumps, MoreSpans(spans, |b.dumps|, from, i),
                   WithIssues(missing, |missing|, issues), seq(|missing|, _ => Span(from, i)));
    RequestedNow(lines, i, r, spans, from, issues, missing);
  }

  lemma TrailerIsRecorded(lines: seq<Line>, i: nat, r: Reading, spans: seq<Span>, from: nat, issues: seq<BatchIssue>,
                          missing: seq<Dump>)
    requires Valid(lines, i, r, spans, from) && r.batch.Some? && EndsCheckpoint(lines, i, r.batch.value.step)
    requires issues == [] <==> CountsRight(lines, from, i, r.batch.value.step)
    requires forall k :: 0 <= k < |missing| ==>
               missing[k].lane !in r.batch.value.lanes && missing[k] == Missing(missing[k].lane, r.batch.value.step)
    requires forall lane <- lines[i].lanes :: lane !in r.batch.value.lanes ==> Missing(lane, r.batch.value.step) in missing
    ensures Valid(lines, i + 1, Reading(AllDumps(r, issues, missing), map[], None), AllSpans(r, spans, missing, from, i), i + 1)
  {
    TrailerEnds(lines, i, r, spans, from, issues, missing);
    TrailerOrdered(r, spans, from, i, missing);
    TrailerRequested(lines, i, r, spans, from, issues, missing);
    TrailerSifted(lines, i, r, spans, from, issues, missing);
  }

  lemma TrailerSifted(lines: seq<Line>, i: nat, r: Reading, spans: seq<Span>, from: nat, issues: seq<BatchIssue>, missing: seq<Dump>)
    requires Valid(lines, i, r, spans, from) && r.batch.Some? && EndsCheckpoint(lines, i, r.batch.value.step)
    requires forall k :: 0 <= k < |missing| ==> missing[k] == Missing(missing[k].lane, r.batch.value.step)
    ensures |AllDumps(r, issues, missing)| == |AllSpans(r, spans, missing, from, i)|
    ensures Sifted(lines, i + 1, AllDumps(r, issues, missing), AllSpans(r, spans, missing, from, i))
  {
    SiftedMore(lines, i, r, spans, from, issues);
    MissingSifted(lines, i, from, Ended(r, issues).dumps, MoreSpans(spans, |r.batch.value.dumps|, from, i), issues, missing,
                  r.batch.value.step);
  }

  lemma MissingSifted(lines: seq<Line>, i: nat, from: nat, dumps: seq<Dump>, spans: seq<Span>, issues: seq<BatchIssue>,
                      missing: seq<Dump>, step: nat)
    requires i < |lines| && !lines[i].Entry? && |dumps| == |spans| && Sifted(lines, i, dumps, spans)
    requires forall k :: 0 <= k < |missing| ==> missing[k] == Missing(missing[k].lane, step)
    ensures |missing| == |WithIssues(missing, |missing|, issues)| && |MoreSpans(spans, |missing|, from, i)| == |spans| + |missing|
    ensures Sifted(lines, i + 1, dumps + WithIssues(missing, |missing|, issues), MoreSpans(spans, |missing|, from, i))
  {
    SiftedEmpty(lines, i, dumps, spans, WithIssues(missing, |missing|, issues), seq(|missing|, _ => Span(from, i)));
  }

  lemma RequestedNow(lines: seq<Line>, i: nat, r: Reading, spans: seq<Span>, from: nat, issues: seq<BatchIssue>, missing: seq<Dump>)
    requires i < |lines| && lines[i].Trailer? && |spans| == |r.dumps| && from <= i
    requires r.batch.Some? && LanesOf(r.batch.value.lanes, r.batch.value.dumps, lines[from..i])
    requires forall lane <- lines[i].lanes :: lane !in r.batch.value.lanes ==> Missing(lane, r.batch.value.step) in missing
    ensures forall lane <- lines[i].lanes :: HasDump(AllDumps(r, issues, missing), AllSpans(r, spans, missing, from, i), lane, i)
  {
    var b := r.batch.value;
    var dumps, all := AllDumps(r, issues, missing), AllSpans(r, spans, missing, from, i);
    forall lane <- lines[i].lanes ensures HasDump(dumps, all, lane, i) {
      if lane in b.lanes {
        var k :| 0 <= k < |b.dumps| && b.dumps[k].lane == lane;
        assert dumps[|r.dumps| + k].lane == lane && all[|r.dumps| + k].to == i;
      } else {
        var k :| 0 <= k < |missing| && missing[k] == Missing(lane, b.step);
        assert dumps[|r.dumps| + |b.dumps| + k].lane == lane && all[|r.dumps| + |b.dumps| + k].to == i;
      }
    }
  }

  // ---- All the lines ----

  /** Every dump of a log is what its checkpoint's lines say of its lane, and has no
      issue with its checkpoint exactly when a trailer of the same step counts every
      entry and leaves none out. Checkpoints follow each other, every entry is in a dump
      of its lane and no two dumps share it, and every lane a trailer names has one. */
  ghost predicate ReadRight(lines: seq<Line>, dumps: seq<Dump>, spans: seq<Span>) {
    && Finished(lines, dumps, spans) && Ordered(spans, |lines|) && Requested(lines, |lines|, dumps, spans)
    && Sifted(lines, |lines|, dumps, spans) && Total(dumps) == EntryCount(lines)
  }

  /** So every entry line is in the checkpoint of one dump of its lane, and of no
      other that holds entries; and that dump holds it. */
  lemma EachEntryInOneDump(lines: seq<Line>, dumps: seq<Dump>, spans: seq<Span>, i: nat)
    requires ReadRight(lines, dumps, spans) && i < |lines| && lines[i].Entry?
    ensures exists k :: 0 <= k < |dumps| && Holding(lines, dumps[k], spans[k], i)
                        && forall j :: 0 <= j < |dumps| && Holding(lines, dumps[j], spans[j], i) ==> j == k
  {
    assert HoldsLine(dumps, spans, lines[i].lane, i);
    var k :| 0 <= k < |dumps| && dumps[k].lane == lines[i].lane && spans[k].from <= i < spans[k].to;
    ItsCheckpointHoldsIt(lines, dumps[k], spans[k], i);
    forall j | 0 <= j < |dumps| && Holding(lines, dumps[j], spans[j], i) ensures j == k {
      assert spans[j] == spans[k];
    }
  }

  lemma ItsCheckpointHoldsIt(lines: seq<Line>, d: Dump, s: Span, i: nat)
    requires Recorded(lines, d, s) && s.from <= i < s.to && lines[i].Entry? && d.lane == lines[i].lane
    ensures Holding(lines, d, s, i)
  {
    var read := lines[s.from..s.to];
    assert read[i - s.from] == lines[i];
    EntryIsThere(read, i - s.from);
  }

  /** The dump is of the line's lane and step, and its entry is one of the dump's. */
  predicate Holding(lines: seq<Line>, d: Dump, s: Span, i: nat)
    requires i < |lines| && lines[i].Entry?
  {
    && d.lane == lines[i].lane && d.step == lines[i].step && s.from <= i < s.to
    && (lines[i].key, lines[i].rest) in d.entries
  }

  predicate Says(d: Dump, line: Line)
    requires line.Entry?
  {
    d.lane == line.lane && d.step == line.step && (line.key, line.rest) in d.entries
  }

  /** Every entry line is said by a dump, and dumps say nothing else. */
  lemma DumpsSayTheLines(lines: seq<Line>, dumps: seq<Dump>, spans: seq<Span>)
    requires ReadRight(lines, dumps, spans)
    ensures forall line <- lines :: line.Entry? ==> exists d <- dumps :: Says(d, line)
    ensures forall d <- dumps :: forall e <- d.entries :: Entry(d.lane, d.step, e.0, e.1) in lines
  {
    forall line | line in lines && line.Entry? ensures exists d <- dumps :: Says(d, line) {
      var i :| 0 <= i < |lines| && lines[i] == line;
      EachEntryInOneDump(lines, dumps, spans, i);
      var k :| 0 <= k < |dumps| && Holding(lines, dumps[k], spans[k], i);
      assert Says(dumps[k], line);
    }
    forall d, e | d in dumps && e in d.entries ensures Entry(d.lane, d.step, e.0, e.1) in lines {
      var k :| 0 <= k < |dumps| && dumps[k] == d;
      var read := lines[spans[k].from..spans[k].to];
      assert Recorded(lines, d, spans[k]);
      var line := EntryFrom(read, d.lane, e);
      assert line in lines;
    }
  }

  /** The line an entry of a lane was read from. */
  lemma {:induction false} EntryFrom(read: seq<Line>, lane: nat, e: (Key, string)) returns (line: Line)
    requires e in LaneEntries(read, lane)
    ensures line in read && line.Entry? && line.lane == lane && (line.key, line.rest) == e
  {
    var last := read[|read| - 1];
    if last.Entry? && last.lane == lane && (last.key, last.rest) == e {
      line := last;
    } else {
      line := EntryFrom(read[..|read| - 1], lane, e);
    }
  }

  lemma Skipped(lines: seq<Line>, i: nat, r: Reading, spans: seq<Span>, from: nat)
    requires Valid(lines, i, r, spans, from) && i < |lines| && lines[i].Other?
    ensures Valid(lines, i + 1, r, spans, if r.batch.Some? then from else i + 1)
  {
    if r.batch.Some? {
      MembersStay(r.open, r.batch.value, lines[from..i], lines[i]);
      ReadOn(lines, i, r, r.open, r.batch.value, spans, from);
    } else {
      ReadOneMore(lines[..i], lines[i], 0);
      assert lines[..i + 1] == lines[..i] + [lines[i]];
    }
  }

  lemma MembersStay(open: map<At, int>, b: Batch, read: seq<Line>, line: Line)
    requires Members(open, b, read) && line.Other?
    ensures Members(open, b, read + [line])
  {
    forall lane: nat ensures LaneEntries(read + [line], lane) == LaneEntries(read, lane) {
      ReadOneMore(read, line, lane);
    }
    ReadOneMore(read, line, 0);
  }

  lemma AllRead(lines: seq<Line>, r: Reading, spans: seq<Span>)
    requires Valid(lines, |lines|, r, spans, |lines|) && r.batch.None?
    ensures ReadRight(lines, r.dumps, spans)
  {
    assert lines[..|lines|] == lines;
  }

  lemma NothingYet(lines: seq<Line>)
    ensures Valid(lines, 0, START, [], 0)
  {
  }

  method ReadDumps(lines: seq<Line>) returns (dumps: seq<Dump>, ghost spans: seq<Span>)
    ensures ReadRight(lines, dumps, spans)
    ensures Total(dumps) == EntryCount(lines)
    ensures forall line <- lines :: line.Entry? ==> exists d <- dumps :: Says(d, line)
    ensures forall d <- dumps :: forall e <- d.entries :: Entry(d.lane, d.step, e.0, e.1) in lines
  {
    var r;
    ghost var from;
    r, spans, from := ReadAll(lines);
    r, spans := FinishWithoutTrailer(r, lines, |lines|, spans, from);
    AllRead(lines, r, spans);
    DumpsSayTheLines(lines, r.dumps, spans);
    return r.dumps, spans;
  }

  method ReadAll(lines: seq<Line>) returns (r: Reading, ghost spans: seq<Span>, ghost from: nat)
    ensures Valid(lines, |lines|, r, spans, from)
  {
    r, spans, from := START, [], 0;
    NothingYet(lines);
    for i := 0 to |lines|
      invariant Valid(lines, i, r, spans, from)
    {
      r, spans, from := OnLine(r, lines[i], lines, i, spans, from);
    }
  }

  method OnLine(r: Reading, line: Line, ghost lines: seq<Line>, ghost i: nat, ghost spans: seq<Span>, ghost from: nat)
    returns (next: Reading, ghost all: seq<Span>, ghost begun: nat)
    requires Valid(lines, i, r, spans, from) && i < |lines| && lines[i] == line
    ensures Valid(lines, i + 1, next, all, begun)
  {
    match line {
      case Entry(lane, step, key, rest) =>
        next, all, begun := OnEntry(r, lane, step, key, rest, lines, i, spans, from);
      case Trailer(step, lanes, written, leftOut) =>
        next, all := OnTrailer(r, step, lanes, written, leftOut, lines, i, spans, from);
        begun := i + 1;
      case Other =>
        Skipped(lines, i, r, spans, from);
        next, all, begun := r, spans, if r.batch.Some? then from else i + 1;
    }
  }
}
