/** A bounded queue of log lines on their way to the server, with a quota of bytes,
    and the switch that guards it
    (crates/tpf3mp-agent/src/diagnostics.rs). */
module DiagnosticsSpec {
  import opened Protocol

  const KEPT: nat := 10_000
  const RUN_QUOTA: nat := 0x1000_0000
  const MAX_DIAGNOSTIC_EVENTS: nat := 32

  /** A line; `size` is what its text and target weigh. */
  datatype Line<T> = Line(size: nat, text: T)

  datatype Queue<T> = Queue(lines: seq<Line<T>>, kept: nat, quota: nat, taken: nat, dropped: nat)

  function Empty<T>(kept: nat, quota: nat): Queue<T> { Queue([], kept, quota, 0, 0) }

  function Push<T>(q: Queue<T>, line: Line<T>): Queue<T> {
    var m := q.(taken := q.taken + line.size);
    if m.taken > q.quota then m.(dropped := q.dropped + 1)
    else if |q.lines| >= q.kept then
      m.(lines := (if q.lines == [] then [] else q.lines[1..]) + [line], dropped := q.dropped + 1)
    else m.(lines := q.lines + [line])
  }

  function Batch<T>(q: Queue<T>): seq<Line<T>> {
    q.lines[..if |q.lines| < MAX_DIAGNOSTIC_EVENTS then |q.lines| else MAX_DIAGNOSTIC_EVENTS]
  }

  function Taken<T>(q: Queue<T>): Queue<T> { q.(lines := q.lines[|Batch(q)|..]) }

  /** A line back in front, if there is room. */
  function PushFront<T>(q: Queue<T>, line: Line<T>): Queue<T> {
    if |q.lines| >= q.kept then q.(dropped := q.dropped + 1) else q.(lines := [line] + q.lines)
  }

  /** Undoes taking `batch`, line by line from its end. */
  function PutBack<T>(q: Queue<T>, batch: seq<Line<T>>): Queue<T>
    decreases |batch|
  {
    if batch == [] then q
    else PutBack(PushFront(q, batch[|batch| - 1]), batch[..|batch| - 1])
  }

  function PushAll<T>(q: Queue<T>, lines: seq<Line<T>>): Queue<T> {
    if lines == [] then q else Push(PushAll(q, lines[..|lines| - 1]), lines[|lines| - 1])
  }

  // ---- What pushing and putting back come to ----

  /** The newest `n` of `s`. */
  function Newest<X>(s: seq<X>, n: nat): (r: seq<X>)
    ensures |r| <= n
  {
    if |s| <= n then s else s[|s| - n..]
  }

  /** The lines a queue that took `taken` bytes takes of `lines`: those within the
      quota. */
  function WithinQuota<T>(lines: seq<Line<T>>, taken: nat, quota: nat): (r: seq<Line<T>>)
    ensures |r| <= |lines|
  {
    if lines == [] then []
    else
      var n := |lines| - 1;
      if taken + Sizes(lines) > quota then WithinQuota(lines[..n], taken, quota)
      else WithinQuota(lines[..n], taken, quota) + [lines[n]]
  }

  function Sizes<T>(lines: seq<Line<T>>): nat {
    if lines == [] then 0 else Sizes(lines[..|lines| - 1]) + lines[|lines| - 1].size
  }

  /** Pushing keeps the newest of what waited and what the quota lets in, and counts
      every other line as dropped. */
  lemma {:induction false} PushesKeepTheNewest<T>(q: Queue<T>, lines: seq<Line<T>>)
    requires 1 <= q.kept && |q.lines| <= q.kept
    ensures var p, all := PushAll(q, lines), q.lines + WithinQuota(lines, q.taken, q.quota);
            && p.kept == q.kept && p.quota == q.quota && p.taken == q.taken + Sizes(lines)
            && p.lines == Newest(all, q.kept)
            && p.dropped == q.dropped + |q.lines| + |lines| - |p.lines|
  {
    if lines == [] {
      assert q.lines + [] == q.lines;
    } else {
      var before, line := lines[..|lines| - 1], lines[|lines| - 1];
      PushesKeepTheNewest(q, before);
      PushKeepsTheNewest(PushAll(q, before), line, q.lines + WithinQuota(before, q.taken, q.quota));
      if q.taken + Sizes(lines) <= q.quota {
        assert q.lines + WithinQuota(lines, q.taken, q.quota) == q.lines + WithinQuota(before, q.taken, q.quota) + [line];
      }
    }
  }

  /** One push onto a queue that holds the newest of `all`. */
  lemma PushKeepsTheNewest<T>(q: Queue<T>, line: Line<T>, all: seq<Line<T>>)
    requires 1 <= q.kept && q.lines == Newest(all, q.kept)
    ensures var p := Push(q, line);
            && p.kept == q.kept && p.quota == q.quota && p.taken == q.taken + line.size
            && p.lines == Newest(if p.taken > q.quota then all else all + [line], q.kept)
            && p.dropped == q.dropped + |q.lines| + 1 - |p.lines|
  {
    NewestOneMore(all, line, q.kept);
  }

  lemma NewestOneMore<X>(all: seq<X>, x: X, n: nat)
    requires 1 <= n
    ensures var kept := Newest(all, n);
            Newest(all + [x], n) == if |kept| >= n then kept[1..] + [x] else kept + [x]
  {
    if |all| >= n {
      assert (all + [x])[|all| + 1 - n..] == all[|all| - n..][1..] + [x];
    }
  }

  /** Putting back keeps the newest of the batch and what waits, and counts every
      other line as dropped. */
  lemma {:induction false} PutBackKeepsTheNewest<T>(q: Queue<T>, batch: seq<Line<T>>)
    requires |q.lines| <= q.kept
    ensures var p := PutBack(q, batch);
            && p == q.(lines := p.lines, dropped := p.dropped)
            && p.lines == Newest(batch + q.lines, q.kept)
            && p.dropped == q.dropped + |batch| + |q.lines| - |p.lines|
    decreases |batch|
  {
    if batch == [] {
      assert [] + q.lines == q.lines;
    } else {
      var n := |batch| - 1;
      var m := PushFront(q, batch[n]);
      PutBackKeepsTheNewest(m, batch[..n]);
      if |q.lines| < q.kept {
        assert batch[..n] + ([batch[n]] + q.lines) == batch + q.lines;
      } else {
        assert (batch + q.lines)[|batch|..] == (batch[..n] + q.lines)[n..] == q.lines;
      }
    }
  }

  /** A queue reached by pushing, taking and putting back. */
  predicate InBounds<T>(q: Queue<T>) { |q.lines| <= if q.kept == 0 then 1 else q.kept }

  /** A failed upload is invisible: a batch taken and, after any pushes, put back,
      leaves the queue as the pushes alone do, in its lines and their order, the
      bytes taken and the count dropped; exactly when the queue may keep a line or
      had none to take. */
  lemma FailedUploadInvisible<T>(q: Queue<T>, pushed: seq<Line<T>>)
    requires InBounds(q)
    ensures PutBack(PushAll(Taken(q), pushed), Batch(q)) == PushAll(q, pushed) <==> q.kept >= 1 || q.lines == []
  {
    if q.kept >= 1 {
      InvisibleWhenKept(q, pushed);
    } else if q.lines == [] {
      assert Taken(q) == q;
    } else {
      LostWhenNotKept(q, pushed);
    }
  }

  lemma InvisibleWhenKept<T>(q: Queue<T>, pushed: seq<Line<T>>)
    requires 1 <= q.kept && |q.lines| <= q.kept
    ensures PutBack(PushAll(Taken(q), pushed), Batch(q)) == PushAll(q, pushed)
  {
    var batch, rest, accepted := Batch(q), Taken(q), WithinQuota(pushed, q.taken, q.quota);
    PushesKeepTheNewest(q, pushed);
    PushesKeepTheNewest(rest, pushed);
    PutBackKeepsTheNewest(PushAll(rest, pushed), batch);
    assert batch + (rest.lines + accepted) == q.lines + accepted;
    NewestOfNewest(batch, rest.lines + accepted, q.kept);
  }

  lemma LostWhenNotKept<T>(q: Queue<T>, pushed: seq<Line<T>>)
    requires q.kept == 0 && |q.lines| == 1
    ensures PutBack(PushAll(Taken(q), pushed), Batch(q)) != PushAll(q, pushed)
  {
    var batch, rest := Batch(q), Taken(q);
    NothingKept(q, pushed);
    NothingKept(rest, pushed);
    var after := PushAll(rest, pushed);
    assert batch[..0] == [] && PutBack(after, batch) == PushFront(after, batch[0]);
  }

  lemma NewestOfNewest<X>(front: seq<X>, back: seq<X>, n: nat)
    ensures Newest(front + Newest(back, n), n) == Newest(front + back, n)
  {
    if |back| > n {
      var kept := back[|back| - n..];
      assert (front + back)[|front| + |back| - n..] == kept;
      assert (front + kept)[|front|..] == kept;
    }
  }

  /** A queue that may keep no line keeps the last one all the same, and counts each
      as dropped. */
  lemma {:induction false} NothingKept<T>(q: Queue<T>, lines: seq<Line<T>>)
    requires q.kept == 0 && |q.lines| <= 1
    ensures var p, accepted := PushAll(q, lines), WithinQuota(lines, q.taken, q.quota);
            && p.kept == 0 && p.quota == q.quota && p.taken == q.taken + Sizes(lines)
            && p.dropped == q.dropped + |lines|
            && p.lines == if accepted == [] then q.lines else [accepted[|accepted| - 1]]
  {
    if lines != [] {
      NothingKept(q, lines[..|lines| - 1]);
    }
  }

  // ---- Whole runs of one upload at a time ----

  datatype Step =
    | Pushes(size: nat)
    | Takes
    | Sends
    | Fails
    | NotKept

  /** Lines are numbered as they are pushed. `unkept` counts those the server said
      it keeps no more of. */
  datatype World = World(queue: Queue<nat>, inFlight: seq<Line<nat>>, sent: seq<Line<nat>>, pushed: nat, unkept: nat)

  function Take(w: World, step: Step): World {
    match step
    case Pushes(size) => w.(queue := Push(w.queue, Line(size, w.pushed)), pushed := w.pushed + 1)
    case Takes => if w.inFlight != [] then w else w.(queue := Taken(w.queue), inFlight := Batch(w.queue))
    case Sends => w.(sent := w.sent + w.inFlight, inFlight := [])
    case Fails => w.(queue := PutBack(w.queue, w.inFlight), inFlight := [])
    case NotKept => w.(inFlight := [], unkept := w.unkept + |w.inFlight|)
  }

  function Run(kept: nat, quota: nat, steps: seq<Step>): World {
    if steps == [] then World(Empty(kept, quota), [], [], 0, 0)
    else Take(Run(kept, quota, steps[..|steps| - 1]), steps[|steps| - 1])
  }

  /** In the order pushed, none twice. */
  ghost predicate Numbered(lines: seq<Line<nat>>, below: nat) {
    && (forall i, j :: 0 <= i < j < |lines| ==> lines[i].text < lines[j].text)
    && (forall line <- lines :: line.text < below)
  }

  lemma NumberedNewest(a: seq<Line<nat>>, b: seq<Line<nat>>, n: nat, below: nat)
    requires Numbered(a + b, below)
    ensures Numbered(a + Newest(b, n), below)
  {
    var c := a + Newest(b, n);
    var d := |b| - |Newest(b, n)|;
    assert forall i :: 0 <= i < |c| ==> c[i] == (a + b)[if i < |a| then i else i + d];
    forall i, j | 0 <= i < j < |c| ensures c[i].text < c[j].text {
      var k, l := if i < |a| then i else i + d, if j < |a| then j else j + d;
      assert k < l && (a + b)[k].text < (a + b)[l].text;
    }
  }

  lemma NumberedPush(a: seq<Line<nat>>, line: Line<nat>)
    requires Numbered(a, line.text)
    ensures Numbered(a + [line], line.text + 1)
  {
  }

  ghost predicate Accounted(w: World, kept: nat) {
    && Numbered(w.sent + (w.inFlight + w.queue.lines), w.pushed)
    && w.pushed == |w.sent| + |w.inFlight| + |w.queue.lines| + w.queue.dropped + w.unkept
    && |w.queue.lines| <= w.queue.kept == kept
  }

  lemma PushAccounted(w: World, size: nat, kept: nat)
    requires 1 <= kept && Accounted(w, kept)
    ensures Accounted(Take(w, Pushes(size)), kept)
  {
    var line, lines := Line(size, w.pushed), w.queue.lines;
    var p := Push(w.queue, line).lines;
    PushKeepsTheNewest(w.queue, line, lines);
    PushNumbered(w.sent, w.inFlight, lines, line, kept);
    assert p == Newest(lines, kept) ==> p == lines;
  }

  lemma PushNumbered(sent: seq<Line<nat>>, inFlight: seq<Line<nat>>, lines: seq<Line<nat>>, line: Line<nat>, kept: nat)
    requires Numbered(sent + (inFlight + lines), line.text)
    ensures Numbered(sent + (inFlight + Newest(lines + [line], kept)), line.text + 1)
    ensures Numbered(sent + (inFlight + lines), line.text + 1)
  {
    var ahead := sent + inFlight;
    Associates(sent, inFlight, lines);
    NumberedPush(ahead + lines, line);
    Associates(ahead, lines, [line]);
    NumberedNewest(ahead, lines + [line], kept, line.text + 1);
    Associates(sent, inFlight, Newest(lines + [line], kept));
  }

  lemma FailAccounted(w: World, kept: nat)
    requires Accounted(w, kept)
    ensures Accounted(Take(w, Fails), kept)
  {
    PutBackKeepsTheNewest(w.queue, w.inFlight);
    NumberedNewest(w.sent, w.inFlight + w.queue.lines, kept, w.pushed);
    var back := PutBack(w.queue, w.inFlight).lines;
    assert [] + back == back;
  }

  lemma OthersAccounted(w: World, step: Step, kept: nat)
    requires Accounted(w, kept) && (step.Takes? || step.Sends? || step.NotKept?)
    ensures Accounted(Take(w, step), kept)
  {
    var q := w.queue;
    match step {
      case Takes =>
        assert Batch(q) + Taken(q).lines == q.lines == [] + q.lines;
      case Sends =>
        assert w.sent + (w.inFlight + q.lines) == w.sent + w.inFlight + ([] + q.lines);
      case NotKept =>
        NumberedNewest(w.sent, w.inFlight + q.lines, |q.lines|, w.pushed);
        assert Newest(w.inFlight + q.lines, |q.lines|) == [] + q.lines;
    }
  }

  /** Over every run: what was sent, what is being sent and what waits are lines as
      they were pushed, in that order and none twice; and every line pushed is one
      of these, was counted as dropped, or was one the server
      declined to keep. */
  lemma {:induction false} EveryRunAccounts(kept: nat, quota: nat, steps: seq<Step>)
    requires 1 <= kept
    ensures Accounted(Run(kept, quota, steps), kept)
  {
    if steps != [] {
      var step := steps[|steps| - 1];
      EveryRunAccounts(kept, quota, steps[..|steps| - 1]);
      var w := Run(kept, quota, steps[..|steps| - 1]);
      match step {
        case Pushes(size) => PushAccounted(w, size, kept);
        case Fails => FailAccounted(w, kept);
        case _ => OthersAccounted(w, step, kept);
      }
    }
  }

  // ---- The switch ----

  datatype Recorder<T> = Recorder(on: bool, generation: nat, queue: Queue<T>)

  /** The setting as work began under it: a file read or an upload. */
  datatype Recording = Recording(on: bool, generation: nat)

  function NewRecorder<T>(): Recorder<T> { Recorder(true, 0, Empty(KEPT, RUN_QUOTA)) }

  function Begin<T>(r: Recorder<T>): Recording { Recording(r.on, r.generation) }

  predicate Holds<T>(r: Recorder<T>, recording: Recording) { r.on && r.generation == recording.generation }

  function RecordLine<T>(r: Recorder<T>, recording: Recording, line: Line<T>): Recorder<T> {
    if Holds(r, recording) then r.(queue := Push(r.queue, line)) else r
  }

  function TakeLines<T>(r: Recorder<T>, recording: Recording): (Recorder<T>, seq<Line<T>>) {
    if Holds(r, recording) then (r.(queue := Taken(r.queue)), Batch(r.queue)) else (r, [])
  }

  function PutLinesBack<T>(r: Recorder<T>, recording: Recording, lines: seq<Line<T>>): Recorder<T> {
    if Holds(r, recording) then r.(queue := PutBack(r.queue, lines)) else r
  }

  function SetOn<T>(r: Recorder<T>, on: bool): Recorder<T> {
    var m := if r.on != on then r.(generation := r.generation + 1, on := on) else r;
    if on then m else m.(queue := m.queue.(lines := []))
  }

  /** What anything may do to a recorder, with any recording, old or new. */
  datatype Use<T> =
    | Toggle(on: bool)
    | Record(recording: Recording, line: Line<T>)
    | TakeSome(recording: Recording)
    | GiveBack(recording: Recording, lines: seq<Line<T>>)

  function Apply<T>(r: Recorder<T>, use: Use<T>): Recorder<T> {
    match use
    case Toggle(on) => SetOn(r, on)
    case Record(recording, line) => RecordLine(r, recording, line)
    case TakeSome(recording) => TakeLines(r, recording).0
    case GiveBack(recording, lines) => PutLinesBack(r, recording, lines)
  }

  function Uses<T>(r: Recorder<T>, uses: seq<Use<T>>): Recorder<T> {
    if uses == [] then r else Apply(Uses(r, uses[..|uses| - 1]), uses[|uses| - 1])
  }

  /** Whether the switch was moved in `uses`. */
  predicate Moved<T>(on: bool, uses: seq<Use<T>>) { exists i :: 0 <= i < |uses| && uses[i].Toggle? && uses[i].on != on }

  /** Generations only grow, and stay while the switch is not moved. */
  lemma {:induction false} Generations<T>(r: Recorder<T>, uses: seq<Use<T>>)
    ensures var m := Uses(r, uses);
            && r.generation <= m.generation
            && (m.generation == r.generation <==> !Moved(r.on, uses))
            && (m.generation == r.generation ==> m.on == r.on)
            && (m.on == r.on <==> m.generation % 2 == r.generation % 2)
  {
    if uses != [] {
      var n := |uses| - 1;
      Generations(r, uses[..n]);
      assert uses == uses[..n] + [uses[n]];
    }
  }

  /** A recording outlives its setting by nothing: once the switch was moved, it can
      neither add a line, take one nor put one back, ever again. While it was not,
      it can exactly when it began with the switch on. */
  lemma OldRecordingIsInert<T>(r: Recorder<T>, uses: seq<Use<T>>, line: Line<T>, lines: seq<Line<T>>)
    ensures var m, recording := Uses(r, uses), Begin(r);
            && (Holds(m, recording) <==> recording.on && !Moved(r.on, uses))
            && (Moved(r.on, uses) ==>
                  && RecordLine(m, recording, line) == m
                  && TakeLines(m, recording) == (m, [])
                  && PutLinesBack(m, recording, lines) == m)
  {
    Generations(r, uses);
  }

  // ---- While the switch stays where it is ----

  /** Whether a use is no upload's under the present setting, and leaves the switch. */
  predicate OnlyRecords<T>(r: Recorder<T>, use: Use<T>) {
    match use
    case Toggle(on) => on == r.on
    case Record(_, _) => true
    case TakeSome(recording) => recording.generation != r.generation
    case GiveBack(recording, _) => recording.generation != r.generation
  }

  /** The lines of these uses that are of the setting numbered `generation`. */
  function LinesOf<T>(uses: seq<Use<T>>, generation: nat): seq<Line<T>> {
    if uses == [] then []
    else
      var last := uses[|uses| - 1];
      LinesOf(uses[..|uses| - 1], generation)
      + if last.Record? && last.recording.generation == generation then [last.line] else []
  }

  /** While the switch is on and not moved, and no upload takes or puts back, the lines
      recorded under the setting are pushed, and nothing else is done. */
  lemma {:induction false} RecordsArePushes<T>(r: Recorder<T>, uses: seq<Use<T>>)
    requires r.on && forall use <- uses :: OnlyRecords(r, use)
    ensures Uses(r, uses) == r.(queue := PushAll(r.queue, LinesOf(uses, r.generation)))
  {
    if uses != [] {
      var before, last := uses[..|uses| - 1], uses[|uses| - 1];
      assert last in uses && forall use <- before :: use in uses;
      RecordsArePushes(r, before);
      RecordIsPush(r, Uses(r, before), LinesOf(before, r.generation), last);
    }
  }

  lemma RecordIsPush<T>(r: Recorder<T>, m: Recorder<T>, lines: seq<Line<T>>, use: Use<T>)
    requires r.on && OnlyRecords(r, use) && m == r.(queue := PushAll(r.queue, lines))
    ensures var more := if use.Record? && use.recording.generation == r.generation then [use.line] else [];
            Apply(m, use) == r.(queue := PushAll(r.queue, lines + more))
  {
    assert lines + [] == lines;
    if use.Record? {
      assert (lines + [use.line])[..|lines|] == lines;
    }
  }

  /** An upload that begins with the switch on takes the oldest lines, as many as go in
      one batch. */
  lemma TakesTheOldest<T>(r: Recorder<T>)
    requires r.on
    ensures var (m, batch) := TakeLines(r, Begin(r));
            && batch + m.queue.lines == r.queue.lines
            && (if MAX_DIAGNOSTIC_EVENTS <= |r.queue.lines| then |batch| == MAX_DIAGNOSTIC_EVENTS else m.queue.lines == [])
            && m == r.(queue := r.queue.(lines := m.queue.lines))
  {
  }

  /** A failed upload is invisible to the recorder, too: what it took under the present
      setting and, after any records and any work of older settings, put back, leaves the
      recorder as these leave it alone; exactly when its queue may keep a line or had none
      to take. */
  lemma FailedUploadLeavesNoTrace<T>(r: Recorder<T>, uses: seq<Use<T>>)
    requires r.on && InBounds(r.queue) && forall use <- uses :: OnlyRecords(r, use)
    ensures var recording := Begin(r);
            var (m, batch) := TakeLines(r, recording);
            PutLinesBack(Uses(m, uses), recording, batch) == Uses(r, uses) <==> r.queue.kept >= 1 || r.queue.lines == []
  {
    var m := TakeLines(r, Begin(r)).0;
    assert forall use <- uses :: OnlyRecords(m, use);
    RecordsArePushes(r, uses);
    RecordsArePushes(m, uses);
    FailedUploadInvisible(r.queue, LinesOf(uses, r.generation));
  }

  /** A recorder as it starts keeps within its bounds, whatever is done with it. */
  lemma {:induction false} AlwaysInBounds<T>(uses: seq<Use<T>>)
    ensures var q := Uses(NewRecorder(), uses).queue; q.kept == KEPT && q.quota == RUN_QUOTA && InBounds(q)
  {
    if uses != [] {
      AlwaysInBounds(uses[..|uses| - 1]);
      var q := Uses(NewRecorder(), uses[..|uses| - 1]).queue;
      var use := uses[|uses| - 1];
      if use.GiveBack? {
        PutBackKeepsTheNewest(q, use.lines);
      }
    }
  }

  /** So in every run from a recorder as it starts, an upload begun with the switch on
      that fails while it stays on leaves no trace. */
  lemma FailedUploadLosesNothing<T>(before: seq<Use<T>>, uses: seq<Use<T>>)
    requires var r := Uses(NewRecorder(), before); r.on && forall use <- uses :: OnlyRecords(r, use)
    ensures var r := Uses(NewRecorder(), before);
            var (m, batch) := TakeLines(r, Begin(r));
            PutLinesBack(Uses(m, uses), Begin(r), batch) == Uses(r, uses)
  {
    AlwaysInBounds(before);
    FailedUploadLeavesNoTrace(Uses(NewRecorder(), before), uses);
  }

  /** The lines a recorder let in, with whatever was moved between. */
  function LetIn<T>(r: Recorder<T>, uses: seq<Use<T>>): seq<Line<T>> {
    if uses == [] then []
    else
      var before, last := uses[..|uses| - 1], uses[|uses| - 1];
      LetIn(r, before) + if last.Record? && Holds(Uses(r, before), last.recording) then [last.line] else []
  }

  /** The quota is of the whole run: moving the switch gives back none of it; and what was
      counted as dropped stays counted. */
  lemma {:induction false} CountsAreOfTheRun<T>(r: Recorder<T>, uses: seq<Use<T>>)
    ensures var q := Uses(r, uses).queue;
            && q.taken == r.queue.taken + Sizes(LetIn(r, uses)) && q.quota == r.queue.quota
            && r.queue.dropped <= q.dropped
  {
    if uses != [] {
      var before, last := uses[..|uses| - 1], uses[|uses| - 1];
      CountsAreOfTheRun(r, before);
      SizesMore(LetIn(r, before), last);
      OneUseCounts(Uses(r, before), last);
    }
  }

  lemma OneUseCounts<T>(r: Recorder<T>, use: Use<T>)
    ensures var q := Apply(r, use).queue;
            && q.taken == r.queue.taken + (if use.Record? && Holds(r, use.recording) then use.line.size else 0)
            && q.quota == r.queue.quota && r.queue.dropped <= q.dropped
  {
    if use.GiveBack? {
      PutBackCounts(r.queue, use.lines);
    }
  }

  lemma SizesMore<T>(lines: seq<Line<T>>, use: Use<T>)
    ensures use.Record? ==> Sizes(lines + [use.line]) == Sizes(lines) + use.line.size
    ensures lines + [] == lines
  {
    if use.Record? {
      assert (lines + [use.line])[..|lines|] == lines;
    }
  }

  lemma {:induction false} PutBackCounts<T>(q: Queue<T>, lines: seq<Line<T>>)
    ensures var p := PutBack(q, lines); p.taken == q.taken && p.quota == q.quota && q.dropped <= p.dropped
    decreases |lines|
  {
    if lines != [] {
      PutBackCounts(PushFront(q, lines[|lines| - 1]), lines[..|lines| - 1]);
    }
  }

  /** Off means nothing waits, in every run from a recorder as it starts. */
  lemma {:induction false} OffMeansEmpty<T>(uses: seq<Use<T>>)
    ensures var r := Uses(NewRecorder(), uses);
            && (!r.on ==> r.queue.lines == [])
            && (r.on <==> r.generation % 2 == 0)
            && r.queue.kept == KEPT
  {
    if uses != [] {
      OffMeansEmpty(uses[..|uses| - 1]);
      var r := Uses(NewRecorder(), uses[..|uses| - 1]);
      var use := uses[|uses| - 1];
      if use.GiveBack? {
        PutBackKept(r.queue, use.lines);
      }
    }
  }

  lemma {:induction false} PutBackKept<T>(q: Queue<T>, lines: seq<Line<T>>)
    ensures PutBack(q, lines).kept == q.kept
    decreases |lines|
  {
    if lines != [] {
      PutBackKept(PushFront(q, lines[|lines| - 1]), lines[..|lines| - 1]);
    }
  }
}
