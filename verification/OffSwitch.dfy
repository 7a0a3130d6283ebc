/** The switch, the queue and a followed log together: toggles, writes to the log,
    looks at it and uploads, each in its own steps and in any order
    (crates/tpf3mp-agent/src/game_logs.rs, crates/tpf3mp-agent/src/diagnostics.rs). */
module OffSwitch {
  import opened Protocol
  import D = DiagnosticsSpec
  import L = LogTail
  import A = LogAccounts

  /** A byte of the log, and the setting it was written under. */
  datatype Mark = Mark(byte: nat, generation: nat)

  type Text = seq<Mark>

  datatype File = File(created: Option<nat>, bytes: Text)

  /** A look at the log: its setting, then the file's metadata, then its bytes, then
      each line recorded. It is blind when it could not look at a file that was there. */
  datatype Look =
    | Resting
    | Begun(recording: D.Recording)
    | Looked(recording: D.Recording, meta: Option<L.Meta>, blind: bool)
    | Recording(recording: D.Recording, lines: seq<Text>)

  datatype Upload = Waiting | Started(recording: D.Recording) | InFlight(recording: D.Recording, lines: seq<D.Line<Text>>)

  /** `taken`: every line ever taken for upload. */
  datatype State = State(recorder: D.Recorder<Text>, file: Option<File>, tail: L.Tail<Mark>, generation: nat,
                         look: Look, upload: Upload, taken: seq<D.Line<Text>>)

  datatype Step =
    | Toggle(on: bool)
    | Write(text: seq<nat>)
    | Remake(created: Option<nat>)
    | Remove
    | OwnLine(size: nat, text: seq<nat>)
    | BeginLook
    | Stat(ok: bool)
    | Act(now: real, readable: bool)
    | RecordNext(size: nat, blank: bool)
    | BeginUpload
    | TakeBatch
    | EndUpload(failed: bool)

  function Marked(text: seq<nat>, generation: nat): Text {
    seq(|text|, i requires 0 <= i < |text| => Mark(text[i], generation))
  }

  function MetaOf(file: Option<File>): Option<L.Meta> {
    if file.None? then None else Some(L.Meta(|file.value.bytes|, file.value.created))
  }

  function Initial(file: Option<File>, looked: bool, perMinute: nat, now: real): (s: State)
    ensures L.Within(s.tail.budget)
  {
    State(D.NewRecorder(), file, L.FromEnd(if looked then MetaOf(file) else None, perMinute, now), 0, Resting, Waiting, [])
  }

  /** Whether the look passes everything over, unread. */
  predicate Skips(s: State, recording: D.Recording) { !recording.on || recording.generation != s.generation }

  function LinesOf(chunks: seq<L.Chunk<Mark>>): seq<Text> {
    if chunks == [] then []
    else
      var last := chunks[|chunks| - 1];
      LinesOf(chunks[..|chunks| - 1]) + if last.Given? then [last.bytes] else []
  }

  function Acted(s: State, now: real, readable: bool, nl: Mark -> bool): State
    requires s.look.Looked? && L.Within(s.tail.budget)
  {
    if Skips(s, s.look.recording) then
      s.(tail := L.SkipToEnd(s.tail, s.look.meta), generation := s.look.recording.generation, look := Resting)
    else
      var content := if readable && s.file.Some? then Some(s.file.value.bytes) else None;
      var (t, polled) := L.Poll(s.tail, s.look.meta, content, now, nl);
      s.(tail := t, look := Recording(s.look.recording, LinesOf(polled.chunks)))
  }

  function Recorded(s: State, size: nat, blank: bool): State
    requires s.look.Recording? && s.look.lines != []
  {
    var rest := s.(look := s.look.(lines := s.look.lines[1..]));
    if blank then rest
    else rest.(recorder := D.RecordLine(s.recorder, s.look.recording, D.Line(size, s.look.lines[0])))
  }

  /** A step that cannot be taken now changes nothing. */
  function Take(s: State, step: Step, nl: Mark -> bool): State
    requires L.Within(s.tail.budget)
  {
    match step
    case Toggle(on) => s.(recorder := D.SetOn(s.recorder, on))
    case Write(text) =>
      if s.file.None? then s
      else s.(file := Some(s.file.value.(bytes := s.file.value.bytes + Marked(text, s.recorder.generation))))
    case Remake(created) => s.(file := Some(File(created, [])))
    case Remove => s.(file := None)
    case OwnLine(size, text) =>
      var line := D.Line(size, Marked(text, s.recorder.generation));
      s.(recorder := D.RecordLine(s.recorder, D.Begin(s.recorder), line))
    case BeginLook => if s.look.Resting? then s.(look := Begun(D.Begin(s.recorder))) else s
    case Stat(ok) =>
      if s.look.Begun? then
        s.(look := Looked(s.look.recording, if ok then MetaOf(s.file) else None, !ok && s.file.Some?))
      else s
    case Act(now, readable) => if s.look.Looked? then Acted(s, now, readable, nl) else s
    case RecordNext(size, blank) =>
      if !s.look.Recording? then s
      else if s.look.lines == [] then s.(look := Resting)
      else Recorded(s, size, blank)
    case BeginUpload => if s.upload.Waiting? then s.(upload := Started(D.Begin(s.recorder))) else s
    case TakeBatch =>
      if !s.upload.Started? then s
      else
        var (r, lines) := D.TakeLines(s.recorder, s.upload.recording);
        s.(recorder := r, upload := InFlight(s.upload.recording, lines), taken := s.taken + lines)
    case EndUpload(failed) =>
      if !s.upload.InFlight? then s
      else
        var r := if failed then D.PutLinesBack(s.recorder, s.upload.recording, s.upload.lines) else s.recorder;
        s.(recorder := r, upload := Waiting)
  }

  lemma BudgetKept(s: State, step: Step, nl: Mark -> bool)
    requires L.Within(s.tail.budget)
    ensures L.Within(Take(s, step, nl).tail.budget)
  {
  }

  function Run(s: State, steps: seq<Step>, nl: Mark -> bool): (t: State)
    requires L.Within(s.tail.budget)
    ensures L.Within(t.tail.budget)
  {
    if steps == [] then s
    else
      var m := Run(s, steps[..|steps| - 1], nl);
      BudgetKept(m, steps[|steps| - 1], nl);
      Take(m, steps[|steps| - 1], nl)
  }

  // ---- What every run keeps ----

  predicate Of(text: Text, generation: nat) {
    forall i :: 0 <= i < |text| ==> text[i].generation == generation
  }

  predicate LinesAre(lines: seq<D.Line<Text>>, generation: nat) { forall line <- lines :: Of(line.text, generation) }

  predicate TextsAre(lines: seq<Text>, generation: nat) { forall line <- lines :: Of(line, generation) }

  /** What a look that starts now may read is of this generation. */
  predicate CaughtUp(tail: L.Tail<Mark>, file: Option<File>, generation: nat) {
    && Of(tail.partial, generation)
    && (file.Some? ==>
          || Of(file.value.bytes, generation)
          || (&& tail.pos <= |file.value.bytes| && Of(file.value.bytes[tail.pos..], generation)
              && (file.value.created.None? || tail.created.None? || file.value.created == tail.created)))
  }

  /** What came to the file since it was looked at is of this generation. */
  predicate SeenUp(meta: Option<L.Meta>, file: Option<File>, generation: nat) {
    file.Some? ==>
      || Of(file.value.bytes, generation)
      || (&& meta.Some? && meta.value.len <= |file.value.bytes| && file.value.created == meta.value.created
          && Of(file.value.bytes[meta.value.len..], generation))
  }

  /** The tail had not read past what was seen of the file. */
  predicate InReach(tail: L.Tail<Mark>, meta: L.Meta, file: Option<File>, generation: nat) {
    file.None? || Of(file.value.bytes, generation) || tail.pos <= meta.len
  }

  predicate Settled<T>(r: D.Recorder<T>) {
    && (r.on <==> r.generation % 2 == 0) && (!r.on ==> r.queue.lines == [])
    && |r.queue.lines| <= r.queue.kept == D.KEPT
  }

  predicate Older(recording: D.Recording, r: D.Recorder<Text>) {
    && recording.generation <= r.generation
    && (recording.generation == r.generation ==> recording.on == r.on)
  }

  predicate LookSound(s: State) {
    var g := s.recorder.generation;
    match s.look
    case Resting => true
    case Begun(rec) => Older(rec, s.recorder)
    case Looked(rec, meta, blind) =>
      && Older(rec, s.recorder) && (blind ==> meta.None?)
      && (rec.on && rec.generation == g && (meta.Some? || (Skips(s, rec) && !blind)) ==> SeenUp(meta, s.file, g))
      && (rec.generation == g && meta.Some? && !Skips(s, rec) ==> InReach(s.tail, meta.value, s.file, g))
    case Recording(rec, lines) => Older(rec, s.recorder) && (rec.generation == g ==> TextsAre(lines, g))
  }

  predicate UploadSound(s: State) {
    var g := s.recorder.generation;
    match s.upload
    case Waiting => true
    case Started(rec) => Older(rec, s.recorder)
    case InFlight(rec, lines) => Older(rec, s.recorder) && (rec.generation == g ==> LinesAre(lines, g))
  }

  /** Written while the switch was on: a setting's generation is even then. */
  predicate WrittenOn(lines: seq<D.Line<Text>>) {
    forall line <- lines :: EvenOnly(line.text)
  }

  predicate EvenOnly(text: Text) { forall i :: 0 <= i < |text| ==> text[i].generation % 2 == 0 }

  predicate Sound(s: State) {
    && L.Within(s.tail.budget) && Settled(s.recorder)
    && LinesAre(s.recorder.queue.lines, s.recorder.generation)
    && s.generation <= s.recorder.generation
    && (s.recorder.on && s.generation == s.recorder.generation ==> CaughtUp(s.tail, s.file, s.generation))
    && LookSound(s) && UploadSound(s) && WrittenOn(s.taken)
  }

  /** A look about to pass the log over, under the present setting with the switch on,
      could not look at it, and it is there. */
  predicate BlindNow(s: State) {
    && s.look == Looked(D.Begin(s.recorder), None, true) && s.recorder.on
    && s.generation != s.recorder.generation && s.file.Some?
  }

  /** A look under a setting since left, or with the switch off, may be blind. */
  predicate NotBlind(s: State, step: Step) { step.Act? ==> !BlindNow(s) }

  ghost predicate NeverBlind(s: State, steps: seq<Step>, nl: Mark -> bool)
    requires L.Within(s.tail.budget)
  {
    forall i :: 0 <= i < |steps| ==> NotBlind(Run(s, steps[..i], nl), steps[i])
  }

  // ---- Lines are made of the bytes they come from ----

  lemma {:induction false} LinesMadeOf(s: Text, g: nat, nl: Mark -> bool)
    requires Of(s, g)
    ensures TextsAre(L.Lines(s, nl), g) && Of(L.Unfinished(s, nl), g)
  {
    if |s| > 0 {
      LinesMadeOf(s[..|s| - 1], g, nl);
    }
  }

  lemma {:induction false} LinesOfAppend(a: seq<L.Chunk<Mark>>, b: seq<L.Chunk<Mark>>)
    ensures LinesOf(a + b) == LinesOf(a) + LinesOf(b)
    decreases |b|
  {
    if b == [] {
      assert a + b == a;
    } else {
      var n := |b| - 1;
      assert (a + b)[..|a| + n] == a + b[..n];
      LinesOfAppend(a, b[..n]);
    }
  }

  lemma {:induction false} LinesOfEnded(lines: seq<Text>)
    ensures LinesOf(L.Ended(lines)) == lines
  {
    if lines != [] {
      var n := |lines| - 1;
      LinesOfEnded(lines[..n]);
      assert L.Ended(lines)[..n] == L.Ended(lines[..n]);
    }
  }

  /** What reading came to is of this generation. */
  predicate MadeOf(t: L.Tail<Mark>, r: (L.Tail<Mark>, seq<L.Chunk<Mark>>), g: nat) {
    && Of(r.0.partial, g) && TextsAre(LinesOf(r.1), g)
    && r.0.pos == t.pos && r.0.created == t.created
  }

  lemma ReadMadeOf(t: L.Tail<Mark>, bytes: Text, g: nat, nl: Mark -> bool)
    requires Of(t.partial, g) && Of(bytes, g)
    ensures MadeOf(t, L.ReadLines(t, bytes, nl), g)
  {
    var all := t.partial + bytes;
    var rest := L.Unfinished(all, nl);
    LinesMadeOf(all, g, nl);
    LinesOfEnded(L.Lines(all, nl));
    LinesOfAppend(L.Ended(L.Lines(all, nl)), L.Cut(rest));
    assert L.Cut(rest)[..0] == [];
  }

  lemma ReadInMadeOf(t: L.Tail<Mark>, bytes: Text, g: nat, nl: Mark -> bool)
    requires Of(t.partial, g) && Of(bytes, g)
    ensures MadeOf(t, L.ReadIn(t, bytes, nl), g)
  {
    if !t.midLine {
      ReadMadeOf(t, bytes, g, nl);
    } else {
      var end := L.FirstNewline(bytes, nl);
      if end < |bytes| {
        PastNewline(t, bytes, end, g, nl);
      } else {
        PassedMadeOf(t, t, [], |bytes|, g);
      }
    }
  }

  lemma PastNewline(t: L.Tail<Mark>, bytes: Text, end: nat, g: nat, nl: Mark -> bool)
    requires Of(t.partial, g) && Of(bytes, g) && end < |bytes|
    ensures var (m, more) := L.ReadLines(t.(midLine := false), bytes[end + 1..], nl);
            MadeOf(t, (m, [L.Passed(end + 1)] + more), g)
  {
    assert Of(bytes[end + 1..], g);
    ReadMadeOf(t.(midLine := false), bytes[end + 1..], g, nl);
    var (m, more) := L.ReadLines(t.(midLine := false), bytes[end + 1..], nl);
    PassedMadeOf(t, m, more, end + 1, g);
  }

  lemma PassedMadeOf(t: L.Tail<Mark>, m: L.Tail<Mark>, more: seq<L.Chunk<Mark>>, count: nat, g: nat)
    requires MadeOf(t, (m, more), g)
    ensures MadeOf(t, (m, [L.Passed(count)] + more), g) && MadeOf(t, (m, [L.Passed(count)]), g)
  {
    var passed: seq<L.Chunk<Mark>> := [L.Passed(count)];
    assert passed[..0] == [] && LinesOf(passed) == [];
    LinesOfAppend(passed, more);
    assert [] + LinesOf(more) == LinesOf(more);
  }

  /** A look that reads what is of this generation gives lines of it, and leaves no
      other to read. */
  lemma PollMadeOf(t: L.Tail<Mark>, meta: Option<L.Meta>, file: Option<File>, readable: bool, now: real, g: nat, nl: Mark -> bool)
    requires L.Within(t.budget) && CaughtUp(t, file, g)
    requires meta.Some? ==> SeenUp(meta, file, g) && InReach(t, meta.value, file, g)
    ensures var content := if readable && file.Some? then Some(file.value.bytes) else None;
            var (m, polled) := L.Poll(t, meta, content, now, nl);
            CaughtUp(m, file, g) && TextsAre(LinesOf(polled.chunks), g)
  {
    if meta.Some? {
      var a := if L.Anew(t, meta.value) then L.FromItsStart(t) else t;
      var (b, skipped) := L.SkipOver(a.(created := if meta.value.created.Some? then meta.value.created else t.created), meta.value.len);
      assert LinesOf(skipped) == [];
      ReadOnMadeOf(b, meta.value.len, file, readable, now, g, nl);
      var content := if readable && file.Some? then Some(file.value.bytes) else None;
      LinesOfAppend(skipped, L.ReadOn(b, meta.value.len, content, now, nl).1.chunks);
    }
  }

  lemma SliceMadeOf(t: L.Tail<Mark>, file: File, want: nat, g: nat)
    requires CaughtUp(t, Some(file), g)
    ensures Of(L.Slice(file.bytes, t.pos, want), g)
  {
    var bytes := L.Slice(file.bytes, t.pos, want);
    if !Of(file.bytes, g) {
      forall i | 0 <= i < |bytes| ensures bytes[i].generation == g {
        assert bytes[i] == file.bytes[t.pos..][i];
      }
    }
  }

  /** A tail that moved on by what it read is caught up still. */
  lemma PastCaughtUp(t: L.Tail<Mark>, m: L.Tail<Mark>, file: File, want: nat, g: nat)
    requires CaughtUp(t, Some(file), g) && Of(m.partial, g)
    requires m.pos == t.pos + |L.Slice(file.bytes, t.pos, want)| && m.created == t.created
    ensures CaughtUp(m, Some(file), g)
  {
    var count := |L.Slice(file.bytes, t.pos, want)|;
    if !Of(file.bytes, g) {
      assert file.bytes[m.pos..] == file.bytes[t.pos..][count..];
    }
  }

  lemma ReadOnMadeOf(t: L.Tail<Mark>, len: nat, file: Option<File>, readable: bool, now: real, g: nat, nl: Mark -> bool)
    requires L.Within(t.budget) && CaughtUp(t, file, g) && t.pos <= len
    ensures var content := if readable && file.Some? then Some(file.value.bytes) else None;
            var (m, polled) := L.ReadOn(t, len, content, now, nl);
            CaughtUp(m, file, g) && TextsAre(LinesOf(polled.chunks), g)
  {
    var want := L.Want(t, len, now);
    if want > 0 && readable && file.Some? {
      var bytes := L.Slice(file.value.bytes, t.pos, want);
      var past := L.Past(t, |bytes|, now);
      SliceMadeOf(t, file.value, want, g);
      ReadInMadeOf(past, bytes, g, nl);
      PastCaughtUp(t, L.ReadIn(past, bytes, nl).0, file.value, want, g);
    } else {
      var content := if readable && file.Some? then Some(file.value.bytes) else None;
      assert L.ReadOn(t, len, content, now, nl) == (t.(budget := L.At(t.budget, now)), L.Polled([], 0));
      assert LinesOf([]) == [];
    }
  }

  // ---- Every step keeps it ----

  lemma ToggleKeeps(s: State, on: bool, nl: Mark -> bool)
    requires Sound(s)
    ensures Sound(Take(s, Toggle(on), nl))
  {
  }

  lemma FileKeeps(s: State, step: Step, nl: Mark -> bool)
    requires Sound(s) && (step.Write? || step.Remake? || step.Remove?)
    ensures Sound(Take(s, step, nl))
  {
    if step.Write? && s.file.Some? {
      var g, old_, more := s.recorder.generation, s.file.value.bytes, Marked(step.text, s.recorder.generation);
      forall k: nat | k <= |old_| && Of(old_[k..], g) ensures Of((old_ + more)[k..], g) {
        assert (old_ + more)[k..] == old_[k..] + more;
      }
    }
  }

  lemma RecordKeeps(s: State, recording: D.Recording, line: D.Line<Text>)
    requires Sound(s) && (D.Holds(s.recorder, recording) ==> Of(line.text, s.recorder.generation))
    ensures Sound(s.(recorder := D.RecordLine(s.recorder, recording, line)))
  {
  }

  lemma OwnLineKeeps(s: State, size: nat, text: seq<nat>, nl: Mark -> bool)
    requires Sound(s)
    ensures Sound(Take(s, OwnLine(size, text), nl))
  {
    RecordKeeps(s, D.Begin(s.recorder), D.Line(size, Marked(text, s.recorder.generation)));
  }

  lemma LookKeeps(s: State, step: Step, nl: Mark -> bool)
    requires Sound(s) && (step.BeginLook? || step.Stat?)
    ensures Sound(Take(s, step, nl))
  {
  }

  lemma ActKeeps(s: State, now: real, readable: bool, nl: Mark -> bool)
    requires Sound(s) && NotBlind(s, Act(now, readable))
    ensures Sound(Take(s, Act(now, readable), nl))
  {
    if s.look.Looked? && !Skips(s, s.look.recording) && s.generation == s.recorder.generation {
      PollMadeOf(s.tail, s.look.meta, s.file, readable, now, s.generation, nl);
    }
  }

  lemma RecordNextKeeps(s: State, size: nat, blank: bool, nl: Mark -> bool)
    requires Sound(s)
    ensures Sound(Take(s, RecordNext(size, blank), nl))
  {
    if s.look.Recording? && s.look.lines != [] {
      var rest := s.(look := s.look.(lines := s.look.lines[1..]));
      assert Sound(rest);
      RecordKeeps(rest, s.look.recording, D.Line(size, s.look.lines[0]));
    }
  }

  lemma {:induction false} PutBackLines(q: D.Queue<Text>, lines: seq<D.Line<Text>>, g: nat)
    requires LinesAre(q.lines, g) && LinesAre(lines, g) && |q.lines| <= q.kept
    ensures var p := D.PutBack(q, lines);
            LinesAre(p.lines, g) && |p.lines| <= p.kept == q.kept
    decreases |lines|
  {
    if lines != [] {
      PutBackLines(D.PushFront(q, lines[|lines| - 1]), lines[..|lines| - 1], g);
    }
  }

  lemma UploadKeeps(s: State, step: Step, nl: Mark -> bool)
    requires Sound(s) && (step.BeginUpload? || step.TakeBatch? || step.EndUpload?)
    ensures Sound(Take(s, step, nl))
  {
    if step.EndUpload? && s.upload.InFlight? && D.Holds(s.recorder, s.upload.recording) {
      PutBackLines(s.recorder.queue, s.upload.lines, s.recorder.generation);
    }
  }

  lemma StepKeeps(s: State, step: Step, nl: Mark -> bool)
    requires Sound(s) && NotBlind(s, step)
    ensures Sound(Take(s, step, nl))
  {
    match step {
      case Toggle(on) => ToggleKeeps(s, on, nl);
      case Write(_) => FileKeeps(s, step, nl);
      case Remake(_) => FileKeeps(s, step, nl);
      case Remove => FileKeeps(s, step, nl);
      case OwnLine(size, text) => OwnLineKeeps(s, size, text, nl);
      case BeginLook => LookKeeps(s, step, nl);
      case Stat(_) => LookKeeps(s, step, nl);
      case Act(now, readable) => ActKeeps(s, now, readable, nl);
      case RecordNext(size, blank) => RecordNextKeeps(s, size, blank, nl);
      case _ => UploadKeeps(s, step, nl);
    }
  }

  /** Nothing written while the switch was off is ever queued or taken for upload,
      for every timing of toggles, writes, looks and uploads, as long as no look that
      passes everything over under the present setting, the switch on, was blind to a log
      that was there: every line
      waiting is of the switch's present setting, none waits while it is off, and
      every line ever taken was written while it was on. */
  lemma {:induction false} NothingWrittenWhileOff(file: Option<File>, looked: bool, perMinute: nat, now: real,
                                                  steps: seq<Step>, nl: Mark -> bool)
    requires file.Some? ==> Of(file.value.bytes, 0)
    requires NeverBlind(Initial(file, looked, perMinute, now), steps, nl)
    ensures var s := Run(Initial(file, looked, perMinute, now), steps, nl);
            && Sound(s)
            && (!s.recorder.on ==> s.recorder.queue.lines == [])
            && LinesAre(s.recorder.queue.lines, s.recorder.generation)
            && WrittenOn(s.recorder.queue.lines) && WrittenOn(s.taken)
  {
    var start := Initial(file, looked, perMinute, now);
    if steps != [] {
      var before, step := steps[..|steps| - 1], steps[|steps| - 1];
      assert forall i :: 0 <= i < |before| ==> before[..i] == steps[..i];
      NothingWrittenWhileOff(file, looked, perMinute, now, before, nl);
      StepKeeps(Run(start, before, nl), step, nl);
    }
  }

  // ---- When a look is blind ----

  lemma RunOn(s: State, steps: seq<Step>, step: Step, nl: Mark -> bool)
    requires L.Within(s.tail.budget)
    ensures Run(s, steps + [step], nl) == Take(Run(s, steps, nl), step, nl)
  {
    assert (steps + [step])[..|steps|] == steps;
  }

  /** Off, a line written, on again; then a look, which passes everything over if it
      can look at the file, and another. */
  function OffAndOn(line: seq<nat>, seen: bool, size: nat, now: real): seq<Step> {
    OffWriteOn(line) + LookOnce(seen, now) + LookOnce(true, now) + [RecordNext(size, false)]
  }

  function OffWriteOn(line: seq<nat>): seq<Step> { [Toggle(false), Write(line), Toggle(true)] }

  function LookOnce(seen: bool, now: real): seq<Step> { [BeginLook, Stat(seen), Act(now, true)] }

  lemma RunLook(s: State, steps: seq<Step>, seen: bool, now: real, nl: Mark -> bool)
    requires L.Within(s.tail.budget) && Run(s, steps, nl).look.Resting?
    ensures var m := Run(s, steps, nl);
            Run(s, steps + LookOnce(seen, now), nl)
            == Acted(m.(look := Looked(D.Begin(m.recorder), if seen then MetaOf(m.file) else None, !seen && m.file.Some?)),
                     now, true, nl)
  {
    RunOn(s, steps, BeginLook, nl);
    RunOn(s, steps + [BeginLook], Stat(seen), nl);
    RunOn(s, steps + [BeginLook] + [Stat(seen)], Act(now, true), nl);
    assert steps + [BeginLook] + [Stat(seen)] + [Act(now, true)] == steps + LookOnce(seen, now);
  }

  lemma WholeLine(text: Text, end: Mark, nl: Mark -> bool)
    requires L.NoNewline(text, nl) && nl(end)
    ensures L.Lines(text + [end], nl) == [text] && L.Unfinished(text + [end], nl) == []
  {
    A.NoLines(text, nl);
    assert (text + [end])[..|text|] == text;
    assert [] + [text] == [text];
  }

  /** Whatever line is written while the switch is off, within a minute's worth, is
      queued once it is on again if and only if the look that should have passed it
      over could not look at the file. */
  lemma BlindLookLetsThrough(text: seq<nat>, end: nat, created: Option<nat>, perMinute: nat, seen: bool, size: nat, now: real,
                             nl: Mark -> bool)
    requires L.NoNewline(Marked(text, 1), nl) && nl(Mark(end, 1)) && |text| < perMinute && size <= D.RUN_QUOTA
    ensures var s0 := Initial(Some(File(created, [])), true, perMinute, now);
            var s := Run(s0, OffAndOn(text + [end], seen, size, now), nl);
            s.recorder.on && s.recorder.queue.lines == if seen then [] else [D.Line(size, Marked(text, 1))]
  {
    var line := text + [end];
    var s0 := Initial(Some(File(created, [])), true, perMinute, now);
    var looks := OffWriteOn(line) + LookOnce(seen, now) + LookOnce(true, now);
    var lines := if seen then [] else [Marked(text, 1)];
    RunOn(s0, looks, RecordNext(size, false), nl);
    RecordsIt(Run(s0, looks, nl), lines, size, nl) by {
      LooksAfter(text, end, created, perMinute, seen, now, nl);
    }
  }

  lemma LooksAfter(text: seq<nat>, end: nat, created: Option<nat>, perMinute: nat, seen: bool, now: real, nl: Mark -> bool)
    requires L.NoNewline(Marked(text, 1), nl) && nl(Mark(end, 1)) && |text| < perMinute
    ensures var s0 := Initial(Some(File(created, [])), true, perMinute, now);
            var s := Run(s0, OffWriteOn(text + [end]) + LookOnce(seen, now) + LookOnce(true, now), nl);
            && s.look == Recording(D.Recording(true, 2), if seen then [] else [Marked(text, 1)])
            && s.recorder == D.NewRecorder().(generation := 2)
  {
    var line := text + [end];
    var s0 := Initial(Some(File(created, [])), true, perMinute, now);
    var toggles := OffWriteOn(line);
    WrittenMeanwhile(line, created, perMinute, now, nl);
    RunLook(s0, toggles, seen, now, nl);
    FirstLook(Run(s0, toggles, nl), seen, now, nl);
    RunLook(s0, toggles + LookOnce(seen, now), true, now, nl);
    SecondLook(Run(s0, toggles + LookOnce(seen, now), nl).tail, text, end, created, perMinute, seen, now, nl);
  }

  lemma FirstLook(s: State, seen: bool, now: real, nl: Mark -> bool)
    requires L.Within(s.tail.budget) && s.recorder.on && s.recorder.generation != s.generation && s.look.Resting?
    ensures var meta := if seen then MetaOf(s.file) else None;
            Acted(s.(look := Looked(D.Begin(s.recorder), meta, !seen && s.file.Some?)), now, true, nl)
            == s.(tail := L.SkipToEnd(s.tail, meta), generation := s.recorder.generation)
  {
  }

  lemma RecordsIt(s: State, lines: seq<Text>, size: nat, nl: Mark -> bool)
    requires L.Within(s.tail.budget) && |lines| <= 1 && size <= D.RUN_QUOTA
    requires s.look == Recording(D.Recording(true, 2), lines)
    requires s.recorder == D.NewRecorder().(generation := 2)
    ensures var r := Take(s, RecordNext(size, false), nl).recorder;
            r.on && r.queue.lines == if lines == [] then [] else [D.Line(size, lines[0])]
  {
  }

  lemma WrittenMeanwhile(line: seq<nat>, created: Option<nat>, perMinute: nat, now: real, nl: Mark -> bool)
    ensures var s0 := Initial(Some(File(created, [])), true, perMinute, now);
            Run(s0, OffWriteOn(line), nl)
            == s0.(recorder := s0.recorder.(generation := 2), file := Some(File(created, Marked(line, 1))))
  {
    var s0 := Initial(Some(File(created, [])), true, perMinute, now);
    RunOn(s0, [], Toggle(false), nl);
    assert [] + [Toggle(false)] == [Toggle(false)];
    RunOn(s0, [Toggle(false)], Write(line), nl);
    RunOn(s0, [Toggle(false)] + [Write(line)], Toggle(true), nl);
    assert OffWriteOn(line) == [Toggle(false)] + [Write(line)] + [Toggle(true)];
    assert [] + Marked(line, 1) == Marked(line, 1);
  }

  lemma SecondLook(t: L.Tail<Mark>, text: seq<nat>, end: nat, created: Option<nat>, perMinute: nat, seen: bool, now: real,
                   nl: Mark -> bool)
    requires L.NoNewline(Marked(text, 1), nl) && nl(Mark(end, 1)) && |text| < perMinute
    requires t == L.Tail(if seen then |text| + 1 else 0, created, [], false, L.NewBudget(perMinute, now))
    ensures L.Within(t.budget)
    ensures var file := Marked(text + [end], 1);
            var chunks := L.Poll(t, Some(L.Meta(|text| + 1, created)), Some(file), now, nl).1.chunks;
            LinesOf(chunks) == if seen then [] else [Marked(text, 1)]
  {
    var file := Marked(text + [end], 1);
    assert file == Marked(text, 1) + [Mark(end, 1)];
    assert L.At(t.budget, now) == t.budget;
    if !seen {
      ReadsItWhole(t, text, end, perMinute, now, nl);
    }
  }

  lemma ReadsItWhole(t: L.Tail<Mark>, text: seq<nat>, end: nat, perMinute: nat, now: real, nl: Mark -> bool)
    requires L.NoNewline(Marked(text, 1), nl) && nl(Mark(end, 1)) && |text| < perMinute
    requires t.pos == 0 && t.partial == [] && !t.midLine && t.budget == L.NewBudget(perMinute, now)
    ensures L.Within(t.budget)
    ensures LinesOf([] + L.ReadOn(t, |text| + 1, Some(Marked(text + [end], 1)), now, nl).1.chunks) == [Marked(text, 1)]
  {
    var file := Marked(text + [end], 1);
    assert file == Marked(text, 1) + [Mark(end, 1)];
    WholeLine(Marked(text, 1), Mark(end, 1), nl);
    WantsAll(t, |file|, now);
    assert ReadFrom(t, file, now) == file;
    OnGivesLines(t, file, file, now, nl);
  }

  lemma WantsAll(t: L.Tail<Mark>, len: nat, now: real)
    requires t.pos == 0 && t.budget == L.NewBudget(t.budget.perMinute, now) && len <= t.budget.perMinute
    ensures L.Within(t.budget) && L.Want(t, len, now) == len
  {
    assert L.At(t.budget, now) == t.budget;
  }

  // ---- And from wherever the system stands ----

  lemma {:induction false} RunTwice(s: State, a: seq<Step>, b: seq<Step>, nl: Mark -> bool)
    requires L.Within(s.tail.budget)
    ensures Run(s, a + b, nl) == Run(Run(s, a, nl), b, nl)
    decreases |b|
  {
    if b == [] {
      assert a + b == a;
    } else {
      var before, last := b[..|b| - 1], b[|b| - 1];
      assert b == before + [last] && a + b == (a + before) + [last];
      RunTwice(s, a, before, nl);
      RunOn(s, a + before, last, nl);
      RunOn(Run(s, a, nl), before, last, nl);
    }
  }

  predicate WrittenOff(text: Text) { exists i :: 0 <= i < |text| && text[i].generation % 2 == 1 }

  predicate HoldsOff(lines: seq<D.Line<Text>>) { exists k :: 0 <= k < |lines| && WrittenOff(lines[k].text) }

  /** What recording a look's lines comes to: those that are not blank. */
  function NotBlank(lines: seq<Text>, sizes: seq<nat>, blanks: seq<bool>): (r: seq<D.Line<Text>>)
    requires |lines| == |sizes| == |blanks|
    ensures |r| <= |lines|
  {
    if lines == [] then []
    else
      var n := |lines| - 1;
      var before := NotBlank(lines[..n], sizes[..n], blanks[..n]);
      if blanks[n] then before else before + [D.Line(sizes[n], lines[n])]
  }

  function Records(sizes: seq<nat>, blanks: seq<bool>, k: nat): seq<Step>
    requires |sizes| == |blanks| && k <= |sizes|
  {
    seq(k, i requires 0 <= i < k => RecordNext(sizes[i], blanks[i]))
  }

  /** The system as the first `k` of a look's lines were recorded. */
  function AsRecorded(s: State, lines: seq<Text>, sizes: seq<nat>, blanks: seq<bool>, k: nat): State
    requires |lines| == |sizes| == |blanks| && k <= |lines| && s.look.Recording?
  {
    s.(look := Recording(s.look.recording, lines[k..]),
       recorder := s.recorder.(queue := D.PushAll(s.recorder.queue, NotBlank(lines[..k], sizes[..k], blanks[..k]))))
  }

  lemma RecordsOne(s: State, lines: seq<Text>, sizes: seq<nat>, blanks: seq<bool>, k: nat, nl: Mark -> bool)
    requires L.Within(s.tail.budget) && |lines| == |sizes| == |blanks| && 0 < k <= |lines|
    requires s.look.Recording? && D.Holds(s.recorder, s.look.recording)
    ensures Take(AsRecorded(s, lines, sizes, blanks, k - 1), RecordNext(sizes[k - 1], blanks[k - 1]), nl)
            == AsRecorded(s, lines, sizes, blanks, k)
  {
    var m := AsRecorded(s, lines, sizes, blanks, k - 1);
    assert m.look.lines != [] && m.look.lines[0] == lines[k - 1] && m.look.lines[1..] == lines[k..];
    RecordNextIs(m, sizes[k - 1], blanks[k - 1], nl);
    OneLineMore(s.recorder.queue, lines, sizes, blanks, k);
  }

  lemma RecordNextIs(m: State, size: nat, blank: bool, nl: Mark -> bool)
    requires L.Within(m.tail.budget) && m.look.Recording? && m.look.lines != [] && D.Holds(m.recorder, m.look.recording)
    ensures Take(m, RecordNext(size, blank), nl)
            == m.(look := Recording(m.look.recording, m.look.lines[1..]),
                  recorder := m.recorder.(queue := if blank then m.recorder.queue
                                                   else D.Push(m.recorder.queue, D.Line(size, m.look.lines[0]))))
  {
  }

  lemma RecordsMore(sizes: seq<nat>, blanks: seq<bool>, k: nat)
    requires |sizes| == |blanks| && 0 < k <= |sizes|
    ensures Records(sizes, blanks, k) == Records(sizes, blanks, k - 1) + [RecordNext(sizes[k - 1], blanks[k - 1])]
  {
  }

  /** Each line of a look recorded under the setting the look began under. */
  lemma {:induction false} RecordsThem(s: State, lines: seq<Text>, sizes: seq<nat>, blanks: seq<bool>, k: nat, nl: Mark -> bool)
    requires L.Within(s.tail.budget) && |lines| == |sizes| == |blanks| && k <= |lines|
    requires s.look.Recording? && s.look.lines == lines && D.Holds(s.recorder, s.look.recording)
    ensures Run(s, Records(sizes, blanks, k), nl) == AsRecorded(s, lines, sizes, blanks, k)
    decreases k
  {
    if k == 0 {
      assert lines[0..] == lines && lines[..0] == [];
      assert Records(sizes, blanks, 0) == [];
    } else {
      RecordsThem(s, lines, sizes, blanks, k - 1, nl);
      RecordsMore(sizes, blanks, k);
      RunOn(s, Records(sizes, blanks, k - 1), RecordNext(sizes[k - 1], blanks[k - 1]), nl);
      RecordsOne(s, lines, sizes, blanks, k, nl);
    }
  }

  lemma OneLineMore(q: D.Queue<Text>, lines: seq<Text>, sizes: seq<nat>, blanks: seq<bool>, k: nat)
    requires |lines| == |sizes| == |blanks| && 0 < k <= |lines|
    ensures var before, now := D.PushAll(q, NotBlank(lines[..k - 1], sizes[..k - 1], blanks[..k - 1])),
                               D.PushAll(q, NotBlank(lines[..k], sizes[..k], blanks[..k]));
            now == if blanks[k - 1] then before else D.Push(before, D.Line(sizes[k - 1], lines[k - 1]))
  {
    assert lines[..k][..k - 1] == lines[..k - 1] && sizes[..k][..k - 1] == sizes[..k - 1] && blanks[..k][..k - 1] == blanks[..k - 1];
    var before := NotBlank(lines[..k - 1], sizes[..k - 1], blanks[..k - 1]);
    assert (before + [D.Line(sizes[k - 1], lines[k - 1])])[..|before|] == before;
  }

  lemma {:induction false} NotBlankHoldsOff(lines: seq<Text>, sizes: seq<nat>, blanks: seq<bool>)
    requires |lines| == |sizes| == |blanks|
    ensures HoldsOff(NotBlank(lines, sizes, blanks))
            <==> exists k :: 0 <= k < |lines| && !blanks[k] && WrittenOff(lines[k])
  {
    if lines != [] {
      var n := |lines| - 1;
      NotBlankHoldsOff(lines[..n], sizes[..n], blanks[..n]);
      assert forall k :: 0 <= k < n ==> lines[..n][k] == lines[k] && blanks[..n][k] == blanks[k];
      var before := NotBlank(lines[..n], sizes[..n], blanks[..n]);
      if !blanks[n] {
        SnocHoldsOff(before, D.Line(sizes[n], lines[n]));
      }
    }
  }

  lemma SnocHoldsOff(lines: seq<D.Line<Text>>, line: D.Line<Text>)
    ensures HoldsOff(lines + [line]) <==> HoldsOff(lines) || WrittenOff(line.text)
  {
    var all := lines + [line];
    assert all[|lines|] == line && forall k :: 0 <= k < |lines| ==> all[k] == lines[k];
  }

  lemma {:induction false} AllWithinQuota<T>(lines: seq<D.Line<T>>, taken: nat, quota: nat)
    requires taken + D.Sizes(lines) <= quota
    ensures D.WithinQuota(lines, taken, quota) == lines
  {
    if lines != [] {
      var n := |lines| - 1;
      AllWithinQuota(lines[..n], taken, quota);
      assert lines == lines[..n] + [lines[n]];
    }
  }

  /** If none waited before, lines written while off wait exactly when one is among the
      newest of those the quota lets in. */
  lemma PushesHoldOff(q: D.Queue<Text>, pushed: seq<D.Line<Text>>, g: nat)
    requires |q.lines| <= q.kept && 1 <= q.kept && LinesAre(q.lines, g) && g % 2 == 0
    ensures HoldsOff(D.PushAll(q, pushed).lines)
            <==> HoldsOff(D.Newest(D.WithinQuota(pushed, q.taken, q.quota), q.kept))
  {
    var let := D.WithinQuota(pushed, q.taken, q.quota);
    D.PushesKeepTheNewest(q, pushed);
    NewestEndsWith(q.lines, let, q.kept);
    OldThenPushed(q.lines, D.Newest(q.lines + let, q.kept), D.Newest(let, q.kept), g);
  }

  lemma OldThenPushed(were: seq<D.Line<Text>>, now: seq<D.Line<Text>>, pushed: seq<D.Line<Text>>, g: nat)
    requires |pushed| <= |now| && now[|now| - |pushed|..] == pushed && LinesAre(were, g) && g % 2 == 0
    requires forall line <- now[..|now| - |pushed|] :: line in were
    ensures HoldsOff(now) <==> HoldsOff(pushed)
  {
    var old_ := now[..|now| - |pushed|];
    NoneOff(old_, g);
    AppendHoldsOff(old_, pushed);
    assert old_ + pushed == now;
  }

  lemma NewestEndsWith<X>(a: seq<X>, b: seq<X>, n: nat)
    ensures var now, of := D.Newest(a + b, n), D.Newest(b, n);
            |of| <= |now| && now[|now| - |of|..] == of && forall x <- now[..|now| - |of|] :: x in a
  {
    var now, of := D.Newest(a + b, n), D.Newest(b, n);
    var gone := |a| + |b| - |now|;
    assert now == (a + b)[gone..];
    if |b| <= n {
      assert now[..|now| - |of|] == a[gone..];
    } else {
      assert now == of;
    }
  }

  lemma NoneOff(lines: seq<D.Line<Text>>, g: nat)
    requires LinesAre(lines, g) && g % 2 == 0
    ensures !HoldsOff(lines)
  {
    forall k | 0 <= k < |lines| ensures !WrittenOff(lines[k].text) {
      assert lines[k] in lines;
    }
  }

  lemma AppendHoldsOff(a: seq<D.Line<Text>>, b: seq<D.Line<Text>>)
    ensures HoldsOff(a + b) <==> HoldsOff(a) || HoldsOff(b)
  {
    assert forall k :: 0 <= k < |a| ==> (a + b)[k] == a[k];
    assert forall k :: 0 <= k < |b| ==> (a + b)[|a| + k] == b[k];
    if HoldsOff(a + b) {
      var k :| 0 <= k < |a + b| && WrittenOff((a + b)[k].text);
      assert k >= |a| ==> b[k - |a|] == (a + b)[k];
    }
  }

  /** What a look reads of the file from where the tail stands. */
  function ReadFrom(t: L.Tail<Mark>, bytes: Text, now: real): Text
    requires L.Within(t.budget) && t.pos <= |bytes|
  {
    bytes[t.pos..t.pos + L.Want(t, |bytes|, now)]
  }

  /** A look at a log that grew within a minute's worth gives the complete lines of
      what it reads. */
  lemma PollGivesLines(t: L.Tail<Mark>, file: File, now: real, nl: Mark -> bool)
    requires L.Within(t.budget) && t.pos <= |file.bytes| && !L.Anew(t, MetaOf(Some(file)).value)
    requires t.partial == [] && !t.midLine && |file.bytes| - t.pos <= t.budget.perMinute
    requires |L.Unfinished(ReadFrom(t, file.bytes, now), nl)| <= L.LONGEST_LINE
    ensures var chunks := L.Poll(t, MetaOf(Some(file)), Some(file.bytes), now, nl).1.chunks;
            LinesOf(chunks) == L.Lines(ReadFrom(t, file.bytes, now), nl)
  {
    var u := t.(created := if file.created.Some? then file.created else t.created);
    var read := ReadFrom(t, file.bytes, now);
    assert L.Want(u, |file.bytes|, now) == |read|;
    OnGivesLines(u, file.bytes, read, now, nl);
  }

  lemma OnGivesLines(t: L.Tail<Mark>, bytes: Text, read: Text, now: real, nl: Mark -> bool)
    requires L.Within(t.budget) && t.pos <= |bytes| && t.partial == [] && !t.midLine
    requires read == ReadFrom(t, bytes, now) && |L.Unfinished(read, nl)| <= L.LONGEST_LINE
    ensures LinesOf([] + L.ReadOn(t, |bytes|, Some(bytes), now, nl).1.chunks) == L.Lines(read, nl)
  {
    ReadsWhat(t, bytes, read, now, nl);
    var chunks := L.ReadOn(t, |bytes|, Some(bytes), now, nl).1.chunks;
    assert [] + chunks == chunks;
    if read != [] {
      ReadGivesLines(L.Past(t, |read|, now), read, nl);
    }
  }

  lemma ReadsWhat(t: L.Tail<Mark>, bytes: Text, read: Text, now: real, nl: Mark -> bool)
    requires L.Within(t.budget) && t.pos <= |bytes| && !t.midLine && read == ReadFrom(t, bytes, now)
    ensures L.ReadOn(t, |bytes|, Some(bytes), now, nl).1.chunks
            == if read == [] then [] else L.ReadLines(L.Past(t, |read|, now), read, nl).1
  {
    assert |read| == L.Want(t, |bytes|, now);
    if read != [] {
      assert L.Slice(bytes, t.pos, |read|) == read;
    }
  }

  lemma NothingCut(rest: Text)
    requires |rest| <= L.LONGEST_LINE
    ensures L.Cut(rest) == []
  {
  }

  lemma ReadGivesLines(t: L.Tail<Mark>, read: Text, nl: Mark -> bool)
    requires t.partial == [] && |L.Unfinished(read, nl)| <= L.LONGEST_LINE
    ensures LinesOf(L.ReadLines(t, read, nl).1) == L.Lines(read, nl)
  {
    assert t.partial + read == read;
    NothingCut(L.Unfinished(read, nl));
    LinesOfEnded(L.Lines(read, nl));
    assert L.Ended(L.Lines(read, nl)) + [] == L.Ended(L.Lines(read, nl));
  }

  /** A passing look that could not look, then another look, up to its lines. */
  lemma BlindThenLook(s: State, now0: real, now: real, nl: Mark -> bool)
    requires L.Within(s.tail.budget) && s.look == Looked(D.Begin(s.recorder), None, true) && s.recorder.on
    requires s.generation != s.recorder.generation && s.file.Some?
    ensures var t := L.SkipToEnd(s.tail, None);
            var r := L.Poll(t, MetaOf(s.file), Some(s.file.value.bytes), now, nl);
            Run(s, [Act(now0, true)] + LookOnce(true, now), nl)
            == s.(tail := r.0, generation := s.recorder.generation,
                  look := Recording(D.Begin(s.recorder), LinesOf(r.1.chunks)))
  {
    RunOn(s, [], Act(now0, true), nl);
    assert [] + [Act(now0, true)] == [Act(now0, true)];
    RunLook(s, [Act(now0, true)], true, now, nl);
  }

  /** What the look after a blind one gives. */
  function LinesNext(s: State, now: real, nl: Mark -> bool): seq<Text>
    requires L.Within(s.tail.budget) && s.file.Some?
  {
    LinesOf(L.Poll(L.SkipToEnd(s.tail, None), MetaOf(s.file), Some(s.file.value.bytes), now, nl).1.chunks)
  }

  /** From wherever the system soundly stands, such a look and the next: a line written
      while the switch was off is queued if and only if one is among the lines the next
      look gives that are not blank, are let in by the quota, and are the newest of
      these. */
  lemma BlindLookExactlyWhen(s: State, now0: real, now: real, sizes: seq<nat>, blanks: seq<bool>, nl: Mark -> bool)
    requires Sound(s) && BlindNow(s) && |LinesNext(s, now, nl)| == |sizes| == |blanks|
    ensures var u := Run(s, [Act(now0, true)] + LookOnce(true, now) + Records(sizes, blanks, |sizes|), nl);
            var let := D.WithinQuota(NotBlank(LinesNext(s, now, nl), sizes, blanks), s.recorder.queue.taken,
                                     s.recorder.queue.quota);
            && u.recorder.on
            && (HoldsOff(u.recorder.queue.lines) <==> HoldsOff(D.Newest(let, D.KEPT)))
  {
    var lines := LinesNext(s, now, nl);
    var steps := [Act(now0, true)] + LookOnce(true, now);
    BlindThenLook(s, now0, now, nl);
    RunTwice(s, steps, Records(sizes, blanks, |sizes|), nl);
    RecordsThem(Run(s, steps, nl), lines, sizes, blanks, |sizes|, nl);
    assert lines[..|sizes|] == lines && sizes[..|sizes|] == sizes && blanks[..|sizes|] == blanks;
    PushesHoldOff(s.recorder.queue, NotBlank(lines, sizes, blanks), s.recorder.generation);
  }

  /** And which lines these are, when the file was not made anew, a minute's worth is not
      passed and no line is too long: those of what it reads on from where the tail was
      left. When they fit the quota and the number kept, one that is not blank and was
      written while off is all it takes. */
  lemma BlindLookReadsOn(s: State, now0: real, now: real, sizes: seq<nat>, blanks: seq<bool>, nl: Mark -> bool)
    requires Sound(s) && BlindNow(s)
    requires var t, file := L.SkipToEnd(s.tail, None), s.file.value;
             && !L.Anew(t, MetaOf(s.file).value) && |file.bytes| - t.pos <= t.budget.perMinute
             && |L.Unfinished(ReadFrom(t, file.bytes, now), nl)| <= L.LONGEST_LINE
    requires var lines := L.Lines(ReadFrom(L.SkipToEnd(s.tail, None), s.file.value.bytes, now), nl);
             && |lines| == |sizes| == |blanks| && |lines| <= D.KEPT
             && s.recorder.queue.taken + D.Sizes(NotBlank(lines, sizes, blanks)) <= s.recorder.queue.quota
    ensures var lines := L.Lines(ReadFrom(L.SkipToEnd(s.tail, None), s.file.value.bytes, now), nl);
            var u := Run(s, [Act(now0, true)] + LookOnce(true, now) + Records(sizes, blanks, |sizes|), nl);
            && LinesNext(s, now, nl) == lines && u.recorder.on
            && (HoldsOff(u.recorder.queue.lines) <==>
                  exists k :: 0 <= k < |lines| && !blanks[k] && WrittenOff(lines[k]))
  {
    var t := L.SkipToEnd(s.tail, None);
    var lines := L.Lines(ReadFrom(t, s.file.value.bytes, now), nl);
    PollGivesLines(t, s.file.value, now, nl);
    BlindLookExactlyWhen(s, now0, now, sizes, blanks, nl);
    AllWithinQuota(NotBlank(lines, sizes, blanks), s.recorder.queue.taken, s.recorder.queue.quota);
    NotBlankHoldsOff(lines, sizes, blanks);
  }
}
