/** An owner hands the room a save: it is cut, told, uploaded, replaced or taken
    back, and results of attempts since replaced keep arriving
    (crates/tpf3mp-agent/src/bridge.rs). */
module StartSave {
  import opened Protocol

  type Snapshot = nat
  type File = nat
  type Stamp = nat
  type Name = nat

  // What a save without a name and without a file is called.
  const NO_NAME: Name := 0

  /** How far the hand-over is; `Idle` without one. */
  datatype Start = Idle | Named | Cutting | Told(snapshot: Snapshot) | Uploaded(snapshot: Snapshot) | Clearing

  /** What the bridge keeps of it, and what it knows of the room. `held` is the
      save the room holds, `told` the one it was told of with its file's stamp as
      it was read, `shown` the name of the one the room last showed. */
  datatype Desk = Desk(start: Start, attempt: nat, held: Option<Snapshot>, told: Option<(Snapshot, Stamp)>,
                       file: Option<File>, name: Name, keepsWorlds: bool,
                       begun: bool, lobby: bool, owner: bool, shown: Option<Name>)

  /** Work it starts: reading a save into the store, what the room is told, and the
      uploads it asks for, with the attempt under way as each begins. */
  datatype Job =
    | Cut(attempt: nat, file: File)
    | Tell(attempt: nat, snapshot: Snapshot, name: Name)
    | TakeBack(attempt: nat)
    | Describe(snapshot: Snapshot, name: Name)
    | Upload(attempt: nat, snapshot: Snapshot)

  /** Results, in whatever order they come. */
  datatype Done =
    | StartCut(attempt: nat, cut: Result<(Snapshot, Option<Stamp>), ()>)
    | StartRefused(attempt: nat)
    | StartCleared(attempt: nat)
    | UploadDone(snapshot: Snapshot, ok: bool)

  datatype View = View(lobby: bool, owner: bool, start: Option<Name>)

  datatype Step =
    | Loop
    | Begins
    | Sees(view: View)
    | Changes(save: Option<(File, Name)>, stamp: Option<Stamp>)
    | Asks(snapshot: Snapshot)
    | Hears(done: Done)

  function Initial(file: Option<File>, name: Name, keepsWorlds: bool, lobby: bool, owner: bool): Desk {
    Desk(if file.Some? then Named else Idle, 0, None, None, file, name, keepsWorlds, false, lobby, owner, None)
  }

  function HandOver(d: Desk): (Desk, seq<Job>) {
    if d.start != Named then (d, [])
    else if d.begun then (d.(start := Idle), [])
    else if !d.lobby || !d.owner then (d, [])
    else if !d.keepsWorlds || d.file.None? then (d.(start := Idle), [])
    else (d.(start := Cutting), [Cut(d.attempt, d.file.value)])
  }

  /** Naming the file once more that was told, with the stamp it was read under. */
  predicate OnlyDescribes(d: Desk, save: Option<(File, Name)>, stamp: Option<Stamp>) {
    && save.Some? && d.told.Some? && (d.start.Told? || d.start.Uploaded?)
    && d.file == Some(save.value.0) && stamp == Some(d.told.value.1)
  }

  /** The owner names another save, or none. */
  function Change(d: Desk, save: Option<(File, Name)>, stamp: Option<Stamp>): (Desk, seq<Job>) {
    if d.begun || !d.lobby || !d.owner then (d, [])
    else if OnlyDescribes(d, save, stamp) then
      (d.(name := save.value.1), [Describe(d.told.value.0, save.value.1)])
    else
      var m := d.(attempt := d.attempt + 1, told := None);
      match save
      case Some((file, name)) => HandOver(m.(file := Some(file), name := name, start := Named))
      case None =>
        (m.(file := None, name := NO_NAME, start := Clearing, held := None), [TakeBack(m.attempt)])
  }

  function Failed(d: Desk): Desk { d.(start := Idle, held := None, told := None) }

  function Arrived(d: Desk, s: Snapshot): Desk { d.(start := Uploaded(s), held := Some(s)) }

  function OnDone(d: Desk, done: Done): (Desk, seq<Job>) {
    match done
    case UploadDone(s, ok) =>
      if d.start != Told(s) then (d, []) else if ok then (Arrived(d, s), []) else (Failed(d), [])
    case StartCut(attempt, cut) =>
      if d.start != Cutting || attempt != d.attempt then (d, [])
      else if cut.Err? then (Failed(d), [])
      else
        var (s, stamp) := cut.value;
        var told := if stamp.Some? then Some((s, stamp.value)) else None;
        var m := d.(told := told, start := Told(s));
        (if d.held == Some(s) then Arrived(m, s) else m.(held := None), [Tell(d.attempt, s, d.name)])
    case StartRefused(attempt) =>
      (if d.start.Told? && attempt == d.attempt then Failed(d) else d, [])
    case StartCleared(attempt) =>
      (if d.start.Clearing? && attempt == d.attempt then d.(start := Idle) else d, [])
  }

  /** The room's view, from which a save given up on shows by its absence. */
  function OnView(d: Desk, v: View): Desk {
    var gaveUp := d.start.Told? && v.owner && v.lobby && v.start.None? && d.shown == Some(d.name);
    (if gaveUp then Failed(d) else d).(lobby := v.lobby, owner := v.owner, shown := v.start)
  }

  function Take(d: Desk, step: Step): (Desk, seq<Job>) {
    match step
    case Loop => HandOver(d)
    case Begins => (d.(begun := true), [])
    case Sees(view) => (OnView(d, view), [])
    case Changes(save, stamp) => Change(d, save, stamp)
    case Asks(snapshot) => (d, if d.keepsWorlds then [Upload(d.attempt, snapshot)] else [])
    case Hears(done) => OnDone(d, done)
  }

  function Run(d: Desk, steps: seq<Step>): (Desk, seq<Job>) {
    if steps == [] then (d, [])
    else
      var (m, jobs) := Run(d, steps[..|steps| - 1]);
      var (n, more) := Take(m, steps[|steps| - 1]);
      (n, jobs + more)
  }

  // ---- What every run keeps ----

  predicate SameKind(a: Job, b: Job) { (a.Cut? && b.Cut?) || (a.Tell? && b.Tell?) || (a.TakeBack? && b.TakeBack?) }

  /** No attempt is cut, told or taken back twice. */
  ghost predicate OncePerAttempt(jobs: seq<Job>) {
    forall i, j :: 0 <= i < j < |jobs| && SameKind(jobs[i], jobs[j]) ==> jobs[i].attempt < jobs[j].attempt
  }

  /** What the room was last told to start from. */
  function RoomTold(jobs: seq<Job>): Option<Snapshot> {
    if jobs == [] then None
    else
      var last := jobs[|jobs| - 1];
      if last.Cut? || last.Upload? then RoomTold(jobs[..|jobs| - 1])
      else if last.TakeBack? then None
      else Some(last.snapshot)
  }

  ghost predicate AttemptsUpTo(jobs: seq<Job>, attempt: nat) {
    forall job <- jobs | !job.Describe? :: job.attempt <= attempt
  }

  /** Which of its jobs the current attempt has started. */
  ghost predicate Started(d: Desk, jobs: seq<Job>) {
    match d.start
    case Idle => true
    case Named => d.told.None? && forall job <- jobs | job.Cut? || job.Tell? :: job.attempt < d.attempt
    case Cutting =>
      && d.told.None? && d.file.Some? && Cut(d.attempt, d.file.value) in jobs
      && forall job <- jobs | job.Tell? :: job.attempt < d.attempt
    case Clearing => d.told.None? && d.held.None? && TakeBack(d.attempt) in jobs && RoomTold(jobs).None?
    case Told(s) => d.held.None? && ToldThisAttempt(d, s, jobs)
    case Uploaded(s) => d.held == Some(s) && ToldThisAttempt(d, s, jobs)
  }

  ghost predicate ToldThisAttempt(d: Desk, s: Snapshot, jobs: seq<Job>) {
    && d.file.Some? && Cut(d.attempt, d.file.value) in jobs
    && (exists job <- jobs :: job.Tell? && job.attempt == d.attempt && job.snapshot == s)
    && RoomTold(jobs) == Some(s)
  }

  ghost predicate Sound(d: Desk, jobs: seq<Job>) {
    && OncePerAttempt(jobs)
    && AttemptsUpTo(jobs, d.attempt)
    && Started(d, jobs)
    && (d.held.Some? ==> RoomTold(jobs) == d.held)
    && (d.told.Some? ==> (d.start.Told? || d.start.Uploaded?) && d.told.value.0 == d.start.snapshot)
  }

  lemma RoomToldAppend(jobs: seq<Job>, job: Job)
    ensures RoomTold(jobs + [job]) ==
            if job.Cut? || job.Upload? then RoomTold(jobs) else if job.TakeBack? then None else Some(job.snapshot)
  {
    assert (jobs + [job])[..|jobs + [job]| - 1] == jobs;
  }

  lemma HandOverKeeps(d: Desk, jobs: seq<Job>)
    requires Sound(d, jobs)
    ensures Sound(HandOver(d).0, jobs + HandOver(d).1)
  {
    var (n, more) := HandOver(d);
    if more == [] {
      assert jobs + more == jobs;
    } else {
      RoomToldAppend(jobs, more[0]);
    }
  }

  lemma ChangeKeeps(d: Desk, jobs: seq<Job>, save: Option<(File, Name)>, stamp: Option<Stamp>)
    requires Sound(d, jobs)
    ensures Sound(Change(d, save, stamp).0, jobs + Change(d, save, stamp).1)
  {
    var (n, more) := Change(d, save, stamp);
    if d.begun || !d.lobby || !d.owner {
      assert jobs + more == jobs;
    } else if OnlyDescribes(d, save, stamp) {
      RoomToldAppend(jobs, more[0]);
    } else if save.None? {
      RoomToldAppend(jobs, more[0]);
    } else {
      var m := d.(attempt := d.attempt + 1, told := None, file := Some(save.value.0), name := save.value.1, start := Named);
      HandOverKeeps(m, jobs);
    }
  }

  lemma DoneKeeps(d: Desk, jobs: seq<Job>, done: Done)
    requires Sound(d, jobs)
    ensures Sound(OnDone(d, done).0, jobs + OnDone(d, done).1)
  {
    var (n, more) := OnDone(d, done);
    if more == [] {
      assert jobs + more == jobs;
    } else {
      CutKeeps(d, jobs, done.cut.value.0, done.cut.value.1);
    }
  }

  lemma CutKeeps(d: Desk, jobs: seq<Job>, s: Snapshot, stamp: Option<Stamp>)
    requires Sound(d, jobs) && d.start.Cutting?
    ensures var (n, more) := OnDone(d, StartCut(d.attempt, Ok((s, stamp))));
            Sound(n, jobs + more)
  {
    var tell := Tell(d.attempt, s, d.name);
    RoomToldAppend(jobs, tell);
    assert tell in jobs + [tell];
  }

  lemma AskKeeps(d: Desk, jobs: seq<Job>, s: Snapshot)
    requires Sound(d, jobs)
    ensures Sound(d, jobs + Take(d, Asks(s)).1)
  {
    if d.keepsWorlds {
      RoomToldAppend(jobs, Upload(d.attempt, s));
      assert forall job <- jobs :: job in jobs + [Upload(d.attempt, s)];
    } else {
      assert jobs + [] == jobs;
    }
  }

  /** Over every run, in whatever order results come: no attempt is cut, told or
      taken back twice; `Told` and `Uploaded` carry the snapshot cut from the file
      now named, told to the room in this very attempt and what it was last told;
      `Uploaded(s)` means s is the save held, `Told` and `Clearing` that none is;
      a save is only ever counted as held while it is what the room was last told. */
  lemma {:induction false} EveryRunSound(file: Option<File>, name: Name, keepsWorlds: bool, lobby: bool, owner: bool,
                                         steps: seq<Step>)
    ensures var (d, jobs) := Run(Initial(file, name, keepsWorlds, lobby, owner), steps);
            Sound(d, jobs)
  {
    if steps != [] {
      var before, step := steps[..|steps| - 1], steps[|steps| - 1];
      EveryRunSound(file, name, keepsWorlds, lobby, owner, before);
      var (d, jobs) := Run(Initial(file, name, keepsWorlds, lobby, owner), before);
      match step {
        case Loop => HandOverKeeps(d, jobs);
        case Changes(save, stamp) => ChangeKeeps(d, jobs, save, stamp);
        case Hears(done) => DoneKeeps(d, jobs, done);
        case Asks(snapshot) => AskKeeps(d, jobs, snapshot);
        case _ => assert jobs + [] == jobs;
      }
    }
  }

  // ---- Late results ----

  /** The results of a replaced attempt change nothing, ever again. */
  lemma {:induction false} ReplacedStaysReplaced(d: Desk, steps: seq<Step>, done: Done)
    requires !done.UploadDone? && done.attempt < d.attempt
    ensures var (m, _) := Run(d, steps);
            d.attempt <= m.attempt && OnDone(m, done) == (m, [])
  {
    if steps != [] {
      ReplacedStaysReplaced(d, steps[..|steps| - 1], done);
    }
  }

  /** Whether this attempt no longer waits for that result. */
  predicate Answered(d: Desk, done: Done)
    requires !done.UploadDone?
  {
    || done.attempt < d.attempt
    || (done.attempt == d.attempt && d.start.Idle?)
    || (done.attempt == d.attempt && done.StartCut? && !d.start.Named? && !d.start.Cutting?)
  }

  lemma AnsweredStays(d: Desk, done: Done, step: Step)
    requires !done.UploadDone? && Answered(d, done)
    ensures Answered(Take(d, step).0, done)
  {
  }

  /** A result that counted counts once: heard again at any later time, it changes
      nothing. */
  lemma {:induction false} CountsOnce(d: Desk, done: Done, steps: seq<Step>)
    requires !done.UploadDone? && OnDone(d, done) != (d, [])
    ensures var (m, _) := Run(OnDone(d, done).0, steps);
            Answered(m, done) && OnDone(m, done) == (m, [])
  {
    if steps != [] {
      CountsOnce(d, done, steps[..|steps| - 1]);
      AnsweredStays(Run(OnDone(d, done).0, steps[..|steps| - 1]).0, done, steps[|steps| - 1]);
    }
  }

  /** An upload's result counts exactly when it is of the save this attempt told
      the room and that has not arrived: whoever started that upload. */
  lemma {:induction false} UploadCountsExactlyWhen(file: Option<File>, name: Name, keepsWorlds: bool, lobby: bool,
                                                   owner: bool, steps: seq<Step>, s: Snapshot, ok: bool)
    ensures var (d, jobs) := Run(Initial(file, name, keepsWorlds, lobby, owner), steps);
            OnDone(d, UploadDone(s, ok)).0 != d <==> d.start.Told? && RoomTold(jobs) == Some(s)
  {
    EveryRunSound(file, name, keepsWorlds, lobby, owner, steps);
  }

  // ---- What results lead to ----

  /** The room starts as without a save: none is on its way, held or told. */
  predicate GivenUp(d: Desk, n: Desk) { n == d.(start := Idle, held := None, told := None) }

  /** In every run, an upload's result that counts: the save arrives and is held, or it is
      given up. Any other changes nothing. */
  lemma UploadLeadsTo(file: Option<File>, name: Name, keepsWorlds: bool, lobby: bool, owner: bool, steps: seq<Step>,
                      s: Snapshot)
    ensures var (d, jobs) := Run(Initial(file, name, keepsWorlds, lobby, owner), steps);
            var (arrived, more), (failed, none) := OnDone(d, UploadDone(s, true)), OnDone(d, UploadDone(s, false));
            && more == none == []
            && if d.start.Told? && RoomTold(jobs) == Some(s) then
                 arrived == d.(start := Uploaded(s), held := Some(s)) && GivenUp(d, failed)
               else arrived == failed == d
  {
    EveryRunSound(file, name, keepsWorlds, lobby, owner, steps);
  }

  /** In every run, a save cut for the present attempt is what the room is told, once, and
      is awaited, unless it is the one the room holds, told last; one that could not be
      read is given up. A cut of another attempt, or heard again, changes nothing. */
  lemma CutLeadsTo(file: Option<File>, name: Name, keepsWorlds: bool, lobby: bool, owner: bool, steps: seq<Step>,
                   attempt: nat, s: Snapshot, stamp: Option<Stamp>)
    ensures var (d, jobs) := Run(Initial(file, name, keepsWorlds, lobby, owner), steps);
            var (n, more), (failed, none) := OnDone(d, StartCut(attempt, Ok((s, stamp)))), OnDone(d, StartCut(attempt, Err(())));
            && none == []
            && if d.start.Cutting? && attempt == d.attempt then
                 && more == [Tell(attempt, s, d.name)] && RoomTold(jobs + more) == Some(s)
                 && n.start == (if d.held == Some(s) then Uploaded(s) else Told(s))
                 && n.held == (if d.held == Some(s) then RoomTold(jobs) else None)
                 && n.told == (if stamp.Some? then Some((s, stamp.value)) else None)
                 && n == d.(start := n.start, held := n.held, told := n.told)
                 && GivenUp(d, failed)
               else n == failed == d && more == []
  {
    EveryRunSound(file, name, keepsWorlds, lobby, owner, steps);
    var (d, jobs) := Run(Initial(file, name, keepsWorlds, lobby, owner), steps);
    RoomToldAppend(jobs, Tell(attempt, s, d.name));
  }

  /** In every run: a save the room refuses is given up, and one it took back leaves
      nothing told or held; each only for the present attempt while it waits for that. */
  lemma AnswersLeadTo(file: Option<File>, name: Name, keepsWorlds: bool, lobby: bool, owner: bool, steps: seq<Step>,
                      attempt: nat)
    ensures var (d, jobs) := Run(Initial(file, name, keepsWorlds, lobby, owner), steps);
            var refused, cleared := OnDone(d, StartRefused(attempt)), OnDone(d, StartCleared(attempt));
            && refused.1 == cleared.1 == []
            && (if d.start.Told? && attempt == d.attempt then GivenUp(d, refused.0) else refused.0 == d)
            && (if d.start.Clearing? && attempt == d.attempt then GivenUp(d, cleared.0) && RoomTold(jobs).None?
                else cleared.0 == d)
  {
    EveryRunSound(file, name, keepsWorlds, lobby, owner, steps);
  }

  /** In every run, what naming a save leads to, in the owner's lobby before the game: the
      one told, unchanged, is described anew and nothing else; any other begins a new
      attempt, for which the earlier one's results no longer count, and none has the room
      told so and nothing held. Elsewhere nothing happens. */
  lemma ChangeLeadsTo(file: Option<File>, name: Name, keepsWorlds: bool, lobby: bool, owner: bool, steps: seq<Step>,
                      save: Option<(File, Name)>, stamp: Option<Stamp>)
    ensures var (d, jobs) := Run(Initial(file, name, keepsWorlds, lobby, owner), steps);
            var (n, more) := Change(d, save, stamp);
            var told := d.told.Some? && d.file.Some? && save.Some? && save.value.0 == d.file.value
                        && stamp == Some(d.told.value.1);
            if d.begun || !d.lobby || !d.owner then (n, more) == (d, [])
            else if told then
              && n == d.(name := save.value.1) && more == [Describe(d.told.value.0, save.value.1)]
              && RoomTold(jobs + more) == RoomTold(jobs) == Some(d.told.value.0)
            else
              && n.attempt == d.attempt + 1 && n.told.None?
              && n.file == (if save.Some? then Some(save.value.0) else None)
              && n.name == (if save.Some? then save.value.1 else NO_NAME)
              && (if save.None? then n.start.Clearing? && n.held.None? && RoomTold(jobs + more).None?
                  else n.held == d.held && RoomTold(jobs + more) == RoomTold(jobs)
                       && if keepsWorlds then n.start.Cutting? && more == [Cut(n.attempt, save.value.0)]
                          else n.start.Idle? && more == [])
  {
    EveryRunSound(file, name, keepsWorlds, lobby, owner, steps);
    KnowsTheRoom(file, name, keepsWorlds, lobby, owner, steps);
    var (d, jobs) := Run(Initial(file, name, keepsWorlds, lobby, owner), steps);
    var more := Change(d, save, stamp).1;
    if more == [] {
      assert jobs + more == jobs;
    } else {
      assert more == [more[0]];
      RoomToldAppend(jobs, more[0]);
    }
  }

  /** The save named is handed over: cut, told, asked for, uploaded. */
  function HandsOver(attempt: nat, s: Snapshot, stamp: Option<Stamp>): seq<Step> {
    [Loop] + [Hears(StartCut(attempt, Ok((s, stamp))))] + [Asks(s)] + [Hears(UploadDone(s, true))]
  }

  /** From wherever an owner named a save in its room's lobby: handed over without a
      replacement, the room was told it once, and holds it. */
  lemma AHandOverArrives(d: Desk, s: Snapshot, stamp: Option<Stamp>)
    requires d.start.Named? && !d.begun && d.lobby && d.owner && d.keepsWorlds && d.file.Some? && d.held != Some(s)
    ensures var (n, jobs) := Run(d, HandsOver(d.attempt, s, stamp));
            && n.start == Uploaded(s) && n.held == Some(s) && n.attempt == d.attempt && n.file == d.file
            && jobs == [Cut(d.attempt, d.file.value), Tell(d.attempt, s, d.name), Upload(d.attempt, s)]
            && RoomTold(jobs) == n.held
  {
    var cut, told, asked := [Cut(d.attempt, d.file.value)], [Tell(d.attempt, s, d.name)], [Upload(d.attempt, s)];
    var first := [Loop] + [Hears(StartCut(d.attempt, Ok((s, stamp))))];
    RunOn(d, [], Loop);
    assert [] + [Loop] == [Loop] && [] + cut == cut;
    RunOn(d, [Loop], Hears(StartCut(d.attempt, Ok((s, stamp)))));
    RunOn(d, first, Asks(s));
    RunOn(d, first + [Asks(s)], Hears(UploadDone(s, true)));
    RoomToldAppend(cut, told[0]);
    RoomToldAppend(cut + told, asked[0]);
    assert cut + told + asked + [] == [Cut(d.attempt, d.file.value), Tell(d.attempt, s, d.name), Upload(d.attempt, s)];
  }

  // ---- What the room shows ----

  /** The room's view last heard. */
  function LastView(lobby: bool, owner: bool, steps: seq<Step>): View {
    if steps == [] then View(lobby, owner, None)
    else
      var last := steps[|steps| - 1];
      if last.Sees? then last.view else LastView(lobby, owner, steps[..|steps| - 1])
  }

  /** What a step tells of the room. */
  lemma StepKnows(d: Desk, step: Step)
    ensures var n := Take(d, step).0;
            && View(n.lobby, n.owner, n.shown) == (if step.Sees? then step.view else View(d.lobby, d.owner, d.shown))
            && n.begun == (d.begun || step.Begins?) && n.keepsWorlds == d.keepsWorlds
  {
    match step
    case Changes(save, stamp) => ChangeKnows(d, save, stamp);
    case Hears(done) => DoneKnows(d, done);
    case _ =>
  }

  lemma ChangeKnows(d: Desk, save: Option<(File, Name)>, stamp: Option<Stamp>)
    ensures var n := Change(d, save, stamp).0;
            && View(n.lobby, n.owner, n.shown) == View(d.lobby, d.owner, d.shown)
            && n.begun == d.begun && n.keepsWorlds == d.keepsWorlds
  {
  }

  lemma DoneKnows(d: Desk, done: Done)
    ensures var n := OnDone(d, done).0;
            && View(n.lobby, n.owner, n.shown) == View(d.lobby, d.owner, d.shown)
            && n.begun == d.begun && n.keepsWorlds == d.keepsWorlds
  {
  }

  lemma {:induction false} KnowsTheRoom(file: Option<File>, name: Name, keepsWorlds: bool, lobby: bool, owner: bool,
                                        steps: seq<Step>)
    ensures var (d, _) := Run(Initial(file, name, keepsWorlds, lobby, owner), steps);
            && View(d.lobby, d.owner, d.shown) == LastView(lobby, owner, steps)
            && (d.begun <==> Begins in steps) && d.keepsWorlds == keepsWorlds
  {
    if steps != [] {
      var before, step := steps[..|steps| - 1], steps[|steps| - 1];
      KnowsTheRoom(file, name, keepsWorlds, lobby, owner, before);
      StepKnows(Run(Initial(file, name, keepsWorlds, lobby, owner), before).0, step);
      assert Begins in steps <==> Begins in before || step.Begins? by {
        assert steps == before + [step];
      }
    }
  }

  /** In every run, whatever the step: a save is cut only as the room's view last heard
      is of a lobby this player owns, before its game begins, where worlds are kept; and
      it is the file now named, for the present attempt. A save named is cut then; after
      the game began, or where none are kept, it is let go, and otherwise it waits. */
  lemma CutsExactlyInItsLobby(file: Option<File>, name: Name, keepsWorlds: bool, lobby: bool, owner: bool, steps: seq<Step>,
                              step: Step)
    ensures var (d, _) := Run(Initial(file, name, keepsWorlds, lobby, owner), steps);
            var (n, more), view := Take(d, step), LastView(lobby, owner, steps);
            var begun, its := Begins in steps, view.lobby && view.owner;
            && (forall job <- more | job.Cut? ::
                  !begun && its && keepsWorlds && n.file == Some(job.file) && job.attempt == n.attempt && n.start.Cutting?)
            && (d.start.Named? && step.Loop? ==>
                  if !begun && its && keepsWorlds && d.file.Some? then more == [Cut(d.attempt, d.file.value)]
                  else more == [] && n == if begun || its then d.(start := Idle) else d)
  {
    KnowsTheRoom(file, name, keepsWorlds, lobby, owner, steps);
  }

  /** In every run, a save told is given up by a view exactly when this player still owns
      the lobby and the room, which showed the save by its name, shows none. Views change
      nothing else of it. */
  lemma GivenUpExactlyWhen(file: Option<File>, name: Name, keepsWorlds: bool, lobby: bool, owner: bool, steps: seq<Step>,
                           view: View)
    ensures var (d, _) := Run(Initial(file, name, keepsWorlds, lobby, owner), steps);
            var n, before := OnView(d, view), LastView(lobby, owner, steps);
            && View(n.lobby, n.owner, n.shown) == view
            && if d.start.Told? && view.owner && view.lobby && view.start.None? && before.start == Some(d.name) then
                 GivenUp(d, n.(lobby := d.lobby, owner := d.owner, shown := d.shown))
               else n == d.(lobby := n.lobby, owner := n.owner, shown := n.shown)
  {
    KnowsTheRoom(file, name, keepsWorlds, lobby, owner, steps);
  }

  lemma RunOn(d: Desk, steps: seq<Step>, step: Step)
    ensures var (m, jobs) := Run(d, steps);
            var (n, more) := Take(m, step);
            Run(d, steps + [step]) == (n, jobs + more)
  {
    assert (steps + [step])[..|steps|] == steps;
  }

  /** The save cut, told and asked for. */
  function FirstAttempt(s: Snapshot): seq<Step> { [Loop] + [Hears(StartCut(0, Ok((s, None))))] + [Asks(s)] }

  lemma AfterFirstAttempt(file: File, name: Name, s: Snapshot)
    ensures var d := Initial(Some(file), name, true, true, true);
            Run(d, FirstAttempt(s)) == (d.(start := Told(s)), [Cut(0, file)] + [Tell(0, s, name)] + [Upload(0, s)])
  {
    var d := Initial(Some(file), name, true, true, true);
    RunOn(d, [], Loop);
    assert [] + [Loop] == [Loop] && [] + [Cut(0, file)] == [Cut(0, file)];
    RunOn(d, [Loop], Hears(StartCut(0, Ok((s, None)))));
    RunOn(d, [Loop] + [Hears(StartCut(0, Ok((s, None))))], Asks(s));
  }

  /** Taken back, named again, cut and told again. */
  function Again(file: File, name: Name, s: Snapshot): seq<Step> {
    FirstAttempt(s) + [Changes(None, None)] + [Changes(Some((file, name)), None)] + [Hears(StartCut(2, Ok((s, None))))]
  }

  /** So an upload may count for an attempt that did not begin it: here the one upload
      ever begun is of an attempt since taken back, and its failure fails the present
      attempt at the same save, whose own upload the room has not asked for. */
  lemma AnEarlierUploadCounts(file: File, name: Name, s: Snapshot)
    ensures var (d, jobs) := Run(Initial(Some(file), name, true, true, true), Again(file, name, s));
            && d.start == Told(s) && d.attempt == 2
            && Upload(0, s) in jobs && (forall job <- jobs | job.Upload? :: job.attempt == 0)
            && OnDone(d, UploadDone(s, false)).0.start == Idle
  {
    var d0 := Initial(Some(file), name, true, true, true);
    var told := [Cut(0, file)] + [Tell(0, s, name)] + [Upload(0, s)];
    AfterFirstAttempt(file, name, s);
    RunOn(d0, FirstAttempt(s), Changes(None, None));
    RunOn(d0, FirstAttempt(s) + [Changes(None, None)], Changes(Some((file, name)), None));
    RunOn(d0, FirstAttempt(s) + [Changes(None, None)] + [Changes(Some((file, name)), None)], Hears(StartCut(2, Ok((s, None)))));
    assert Run(d0, Again(file, name, s)).1 == told + [TakeBack(1)] + [Cut(2, file)] + [Tell(2, s, name)];
    assert told[2] == Upload(0, s);
  }
}
