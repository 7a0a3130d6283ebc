/** Comparing the lane dumps of several games, and the exit status
    (tools/lane_diff.py). How a text is parsed is left to a parser, and how ignored
    fields are taken out of one to `strip`. */
module LaneDiff {
  import opened Protocol
  import opened LaneDumps
  import opened LaneIssues

  // ---- What one comparison says ----

  /** The texts of the rows of one name, in order. */
  function Rests(entries: seq<(Key, string)>, name: string): seq<string> {
    if entries == [] then []
    else
      var (key, rest) := entries[|entries| - 1];
      if key == Row(name) then Rests(entries[..|entries| - 1], name) + [rest] else Rests(entries[..|entries| - 1], name)
  }

  function Stripped(rests: seq<string>, strip: string -> string): seq<string> {
    seq(|rests|, i requires 0 <= i < |rests| => strip(rests[i]))
  }

  function Value(d: Dump, name: string, strip: string -> string): (v: seq<string>)
    ensures |v| == |Rests(d.entries, name)|
  {
    Stripped(Rests(d.entries, name), strip)
  }

  /** Rows of this name differ where two games captured them, or one game that
      captured everything has none where another has. */
  ghost predicate KnownToDiffer(games: seq<Dump>, name: string, strip: string -> string, p: Parser) {
    exists d, e :: d in games && e in games && Value(e, name, strip) != [] && Value(d, name, strip) != Value(e, name, strip)
                   && (Value(d, name, strip) != [] || Complete(d, p))
  }

  predicate SummariesDiffer(games: seq<Dump>) {
    && (forall d <- games :: d.summary.Some? && d.error.None?)
    && exists d, e :: d in games && e in games && d.summary != e.summary
  }

  ghost predicate Differ(games: seq<Dump>, strip: string -> string, p: Parser) {
    SummariesDiffer(games) || exists name :: KnownToDiffer(games, name, strip, p)
  }

  /** The games' captures say the same. */
  ghost predicate Agree(games: seq<Dump>, strip: string -> string) {
    forall d, e :: d in games && e in games ==>
      d.summary == e.summary && forall name :: Value(d, name, strip) == Value(e, name, strip)
  }

  /** Where every capture is complete, finding no difference is agreeing. */
  lemma NoDifferenceIsAgreement(games: seq<Dump>, strip: string -> string, p: Parser)
    requires forall d <- games :: Complete(d, p)
    ensures !Differ(games, strip, p) <==> Agree(games, strip)
  {
    forall d | d in games ensures d.summary.Some? && d.error.None? {
      CompleteExactlyWhen(d, p);
    }
    if !Differ(games, strip, p) {
      forall d, e, name | d in games && e in games
        ensures d.summary == e.summary && Value(d, name, strip) == Value(e, name, strip)
      {
        if Value(d, name, strip) != Value(e, name, strip) {
          assert KnownToDiffer(games, name, strip, p);
          assert false;
        }
      }
    }
  }

  // ---- Comparing ----

  /** The rows of a capture by name; repeated names remain repeated entries. */
  method Keyed(entries: seq<(Key, string)>) returns (names: seq<string>, rests: map<string, seq<string>>)
    ensures forall name :: name in rests <==> name in names
    ensures forall name :: name in names <==> Rests(entries, name) != []
    ensures forall name <- names :: rests[name] == Rests(entries, name)
  {
    names, rests := [], map[];
    for i := 0 to |entries|
      invariant forall name :: name in rests <==> name in names
      invariant forall name :: name in names <==> Rests(entries[..i], name) != []
      invariant forall name <- names :: rests[name] == Rests(entries[..i], name)
    {
      assert entries[..i + 1][..i] == entries[..i];
      var (key, rest) := entries[i];
      if key.Row? {
        if key.name in rests {
          rests := rests[key.name := rests[key.name] + [rest]];
        } else {
          names := names + [key.name];
          rests := rests[key.name := [rest]];
        }
      }
    }
    assert entries[..|entries|] == entries;
  }

  lemma TwoOfThem<X>(s: set<X>)
    ensures |s| > 1 <==> exists x, y :: x in s && y in s && x != y
  {
    if |s| > 1 {
      var x :| x in s;
      assert |s - {x}| > 0;
      var y :| y in s - {x};
    }
    if exists x, y :: x in s && y in s && x != y {
      var x, y :| x in s && y in s && x != y;
      assert {x, y} <= s;
      SubsetIsNoLarger({x, y}, s);
    }
  }

  lemma SubsetIsNoLarger<X>(a: set<X>, b: set<X>)
    requires a <= b
    ensures |a| <= |b|
  {
    if a != {} {
      var x :| x in a;
      SubsetIsNoLarger(a - {x}, b - {x});
    }
  }

  /** Which captures are complete. */
  method Completeness(games: seq<Dump>, p: Parser) returns (complete: seq<bool>)
    ensures |complete| == |games| && forall g :: 0 <= g < |games| ==> complete[g] == Complete(games[g], p)
  {
    complete := [];
    for g := 0 to |games|
      invariant |complete| == g && forall h :: 0 <= h < g ==> complete[h] == Complete(games[h], p)
    {
      var issues := Issues(games[g], p);
      assert issues == [] <==> Complete(games[g], p) by {
        if issues != [] {
          assert issues[0] in issues;
        }
      }
      complete := complete + [issues == []];
    }
  }

  /** Whether what the games have under one name is known to differ. */
  method IsKnownToDiffer(games: seq<Dump>, byGame: seq<map<string, seq<string>>>, complete: seq<bool>, name: string,
                         strip: string -> string, ghost p: Parser)
    returns (known: bool)
    requires |byGame| == |games| && |complete| == |games|
    requires forall g :: 0 <= g < |games| ==> complete[g] == Complete(games[g], p)
    requires forall g :: 0 <= g < |games| ==> if name in byGame[g] then byGame[g][name] == Rests(games[g].entries, name)
                                              else Rests(games[g].entries, name) == []
    ensures known <==> KnownToDiffer(games, name, strip, p)
  {
    var values := seq(|games|, g requires 0 <= g < |games| => if name in byGame[g] then Stripped(byGame[g][name], strip) else []);
    assert forall g :: 0 <= g < |games| ==> values[g] == Value(games[g], name, strip);
    var present := set v <- values | v != [];
    KnownByPresent(games, name, strip, p, values, present);
    known := |present| > 1;
    if present != {} && exists g :: 0 <= g < |games| && values[g] == [] && complete[g] {
      known := true;
    }
  }

  lemma KnownByPresent(games: seq<Dump>, name: string, strip: string -> string, p: Parser, values: seq<seq<string>>,
                       present: set<seq<string>>)
    requires |values| == |games| && forall g :: 0 <= g < |games| ==> values[g] == Value(games[g], name, strip)
    requires forall v :: v in present <==> v in values && v != []
    ensures KnownToDiffer(games, name, strip, p) <==>
              || |present| > 1
              || (present != {} && exists g :: 0 <= g < |games| && values[g] == [] && Complete(games[g], p))
  {
    TwoOfThem(present);
    KnownByValues(games, name, strip, p, values);
    assert present != {} <==> exists v :: v in present;
  }

  lemma KnownByValues(games: seq<Dump>, name: string, strip: string -> string, p: Parser, values: seq<seq<string>>)
    requires |values| == |games| && forall g :: 0 <= g < |games| ==> values[g] == Value(games[g], name, strip)
    ensures KnownToDiffer(games, name, strip, p) <==>
              || (exists v, w :: v in values && w in values && v != [] && w != [] && v != w)
              || (&& (exists v :: v in values && v != [])
                  && exists g :: 0 <= g < |games| && values[g] == [] && Complete(games[g], p))
  {
    if KnownToDiffer(games, name, strip, p) {
      var d, e :| d in games && e in games && Value(e, name, strip) != [] && Value(d, name, strip) != Value(e, name, strip)
                  && (Value(d, name, strip) != [] || Complete(d, p));
      var g :| 0 <= g < |games| && games[g] == d;
      var h :| 0 <= h < |games| && games[h] == e;
      assert values[g] in values && values[h] in values;
    }
    if v, w :| v in values && w in values && v != [] && w != [] && v != w {
      var g :| 0 <= g < |games| && values[g] == v;
      var h :| 0 <= h < |games| && values[h] == w;
      assert games[g] in games && games[h] in games;
    }
    if v :| v in values && v != [] {
      var h :| 0 <= h < |games| && values[h] == v;
      if g :| 0 <= g < |games| && values[g] == [] && Complete(games[g], p) {
        assert games[g] in games && games[h] in games;
      }
    }
  }

  /** The names known to differ. */
  ghost function Differing(games: seq<Dump>, strip: string -> string, p: Parser): set<string> {
    set d <- games, e <- d.entries | e.0.Row? && KnownToDiffer(games, e.0.name, strip, p) :: e.0.name
  }

  lemma {:induction false} RestsAreEntries(entries: seq<(Key, string)>, name: string)
    ensures Rests(entries, name) != [] <==> exists e :: e in entries && e.0 == Row(name)
  {
    if entries != [] {
      var n := |entries| - 1;
      RestsAreEntries(entries[..n], name);
      assert entries == entries[..n] + [entries[n]];
    }
  }

  lemma DifferingAre(games: seq<Dump>, strip: string -> string, p: Parser, name: string)
    ensures name in Differing(games, strip, p) <==> KnownToDiffer(games, name, strip, p)
  {
    if KnownToDiffer(games, name, strip, p) {
      var e :| e in games && Value(e, name, strip) != [];
      RestsAreEntries(e.entries, name);
      var x :| x in e.entries && x.0 == Row(name);
    }
  }

  /** The rows of every game by name, and the names of all. */
  method AllKeyed(games: seq<Dump>) returns (names: seq<string>, byGame: seq<map<string, seq<string>>>)
    ensures |byGame| == |games|
    ensures forall name :: name in names <==> exists k :: 0 <= k < |games| && Rests(games[k].entries, name) != []
    ensures forall i, j :: 0 <= i < j < |names| ==> names[i] != names[j]
    ensures forall k, name :: 0 <= k < |games| ==> if name in byGame[k] then byGame[k][name] == Rests(games[k].entries, name)
                                                   else Rests(games[k].entries, name) == []
  {
    names, byGame := [], [];
    for g := 0 to |games|
      invariant |byGame| == g
      invariant forall name :: name in names <==> exists k :: 0 <= k < g && Rests(games[k].entries, name) != []
      invariant forall i, j :: 0 <= i < j < |names| ==> names[i] != names[j]
      invariant forall k, name :: 0 <= k < g ==> if name in byGame[k] then byGame[k][name] == Rests(games[k].entries, name)
                                                 else Rests(games[k].entries, name) == []
    {
      var more, rests := Keyed(games[g].entries);
      byGame := byGame + [rests];
      names := Union(names, more);
    }
  }

  /** Two lists' elements, each once. */
  method Union(a: seq<string>, b: seq<string>) returns (c: seq<string>)
    requires forall i, j :: 0 <= i < j < |a| ==> a[i] != a[j]
    ensures forall i, j :: 0 <= i < j < |c| ==> c[i] != c[j]
    ensures forall x :: x in c <==> x in a || x in b
  {
    c := a;
    for i := 0 to |b|
      invariant forall i, j :: 0 <= i < j < |c| ==> c[i] != c[j]
      invariant forall x :: x in c <==> x in a || x in b[..i]
    {
      assert b[..i + 1] == b[..i] + [b[i]];
      if b[i] !in c {
        c := c + [b[i]];
      }
    }
    assert b[..|b|] == b;
  }

  /** How many names are known to differ; 1 when only the summaries do. */
  method Compare(games: seq<Dump>, strip: string -> string, p: Parser) returns (differences: nat)
    ensures var known := |Differing(games, strip, p)|;
            differences == if known > 0 then known else if SummariesDiffer(games) then 1 else 0
    ensures differences > 0 <==> Differ(games, strip, p)
  {
    var complete := Completeness(games, p);
    var names, byGame := AllKeyed(games);
    ghost var counted;
    differences, counted := CountKnown(games, byGame, complete, names, strip, p);
    AllCounted(games, strip, p, names, counted);
    if differences == 0 && SummariesDiffer(games) {
      differences := 1;
    }
  }

  /** How many of these names are known to differ, and which. */
  method CountKnown(games: seq<Dump>, byGame: seq<map<string, seq<string>>>, complete: seq<bool>, names: seq<string>,
                    strip: string -> string, ghost p: Parser)
    returns (count: nat, ghost counted: set<string>)
    requires |byGame| == |games| && |complete| == |games|
    requires forall g :: 0 <= g < |games| ==> complete[g] == Complete(games[g], p)
    requires forall g, name :: 0 <= g < |games| ==> if name in byGame[g] then byGame[g][name] == Rests(games[g].entries, name)
                                                    else Rests(games[g].entries, name) == []
    requires forall i, j :: 0 <= i < j < |names| ==> names[i] != names[j]
    ensures count == |counted|
    ensures forall name :: name in counted <==> name in names && KnownToDiffer(games, name, strip, p)
  {
    count, counted := 0, {};
    for i := 0 to |names|
      invariant count == |counted|
      invariant forall name :: name in counted <==> name in names[..i] && KnownToDiffer(games, name, strip, p)
    {
      assert names[..i + 1] == names[..i] + [names[i]];
      var known := IsKnownToDiffer(games, byGame, complete, names[i], strip, p);
      if known {
        assert names[i] !in names[..i];
        count, counted := count + 1, counted + {names[i]};
      }
    }
    assert names[..|names|] == names;
  }

  lemma AllCounted(games: seq<Dump>, strip: string -> string, p: Parser, names: seq<string>, counted: set<string>)
    requires forall name :: name in names <==> exists k :: 0 <= k < |games| && Rests(games[k].entries, name) != []
    requires forall name :: name in counted <==> name in names && KnownToDiffer(games, name, strip, p)
    ensures counted == Differing(games, strip, p)
    ensures (exists name :: KnownToDiffer(games, name, strip, p)) <==> |counted| > 0
  {
    forall name ensures name in counted <==> name in Differing(games, strip, p) {
      DifferingAre(games, strip, p, name);
      if KnownToDiffer(games, name, strip, p) {
        var e :| e in games && Value(e, name, strip) != [];
        var k :| 0 <= k < |games| && games[k] == e;
        assert Rests(games[k].entries, name) != [];
      }
    }
    SomeDiffer(games, strip, p, counted);
  }

  lemma SomeDiffer(games: seq<Dump>, strip: string -> string, p: Parser, counted: set<string>)
    requires counted == Differing(games, strip, p)
    ensures (exists name :: KnownToDiffer(games, name, strip, p)) <==> |counted| > 0
  {
    if name :| KnownToDiffer(games, name, strip, p) {
      DifferingAre(games, strip, p, name);
      assert name in counted;
    }
    if name :| name in counted {
      DifferingAre(games, strip, p, name);
    }
  }

  // ---- The verdict ----

  /** The captures of one lane at one step, in the order they began. */
  function CapturesOf(dumps: seq<Dump>, at: At): seq<Dump> {
    if dumps == [] then []
    else
      var n := |dumps| - 1;
      if Place(dumps[n]) == at then CapturesOf(dumps[..n], at) + [dumps[n]] else CapturesOf(dumps[..n], at)
  }

  lemma {:induction false} CapturesAre(dumps: seq<Dump>, at: At, d: Dump)
    ensures d in CapturesOf(dumps, at) <==> d in dumps && Place(d) == at
  {
    if dumps != [] {
      var n := |dumps| - 1;
      CapturesAre(dumps[..n], at, d);
      assert dumps == dumps[..n] + [dumps[n]];
    }
  }

  function Selected(logs: seq<seq<Dump>>, lanes: seq<nat>, steps: seq<nat>): set<At> {
    set log <- logs, d <- log | (lanes == [] || d.lane in lanes) && (steps == [] || d.step in steps) :: Place(d)
  }

  /** Every game has as many captures as the first. */
  predicate Paired(logs: seq<seq<Dump>>, at: At)
    requires logs != []
  {
    forall g :: 0 <= g < |logs| ==> |CapturesOf(logs[g], at)| == |CapturesOf(logs[0], at)|
  }

  function Aligned(logs: seq<seq<Dump>>, at: At, i: nat): (games: seq<Dump>)
    requires logs != [] && Paired(logs, at) && i < |CapturesOf(logs[0], at)|
  {
    seq(|logs|, g requires 0 <= g < |logs| => CapturesOf(logs[g], at)[i])
  }

  ghost predicate SameAt(logs: seq<seq<Dump>>, at: At, strip: string -> string, p: Parser)
    requires logs != []
  {
    Paired(logs, at) && forall i :: 0 <= i < |CapturesOf(logs[0], at)| ==> SameIn(Aligned(logs, at, i), strip, p)
  }

  ghost predicate SameIn(games: seq<Dump>, strip: string -> string, p: Parser) {
    (forall d <- games :: Complete(d, p)) && Agree(games, strip)
  }

  ghost predicate DifferAt(logs: seq<seq<Dump>>, at: At, strip: string -> string, p: Parser)
    requires logs != []
  {
    Paired(logs, at) && exists i :: 0 <= i < |CapturesOf(logs[0], at)| && Differ(Aligned(logs, at, i), strip, p)
  }

  /** One lane at one step: whether a difference was found, and whether anything was
      left open. */
  method Look(logs: seq<seq<Dump>>, at: At, strip: string -> string, p: Parser) returns (differ: nat, inconclusive: bool)
    requires logs != []
    ensures differ > 0 <==> DifferAt(logs, at, strip, p)
    ensures differ == 0 && !inconclusive <==> SameAt(logs, at, strip, p)
  {
    differ, inconclusive := 0, false;
    if !Paired(logs, at) {
      return 0, true;
    }
    for i := 0 to |CapturesOf(logs[0], at)|
      invariant differ > 0 <==> exists j :: 0 <= j < i && Differ(Aligned(logs, at, j), strip, p)
      invariant differ == 0 && !inconclusive <==> forall j :: 0 <= j < i ==> SameIn(Aligned(logs, at, j), strip, p)
    {
      var games := Aligned(logs, at, i);
      var complete := Completeness(games, p);
      if false in complete {
        inconclusive := true;
      } else {
        assert forall g :: 0 <= g < |games| ==> complete[g];
        NoDifferenceIsAgreement(games, strip, p);
      }
      var more := Compare(games, strip, p);
      differ := differ + more;
    }
  }

  /** The exit status: 0 exactly when there is something to compare and, at every
      lane and step selected, all games have as many captures, each complete, that
      agree; 1 exactly when a difference was found; 2 otherwise. */
  method Verdict(logs: seq<seq<Dump>>, lanes: seq<nat>, steps: seq<nat>, strip: string -> string, p: Parser) returns (exit: nat)
    requires logs != []
    ensures exit == 0 <==> Selected(logs, lanes, steps) != {}
                           && forall at <- Selected(logs, lanes, steps) :: SameAt(logs, at, strip, p)
    ensures exit == 1 <==> exists at <- Selected(logs, lanes, steps) :: DifferAt(logs, at, strip, p)
    ensures exit <= 2
  {
    var points := Selected(logs, lanes, steps);
    if points == {} {
      return 2;
    }
    var differ, inconclusive, left := 0, false, points;
    while left != {}
      invariant left <= points
      invariant differ >= 0
      invariant differ > 0 <==> exists at <- points - left :: DifferAt(logs, at, strip, p)
      invariant differ == 0 && !inconclusive <==> forall at <- points - left :: SameAt(logs, at, strip, p)
      decreases |left|
    {
      var at :| at in left;
      var more, open := Look(logs, at, strip, p);
      differ, inconclusive, left := differ + more, inconclusive || open, left - {at};
    }
    assert points - left == points;
    return if differ > 0 then 1 else if inconclusive then 2 else 0;
  }

  // ---- From the logs' lines to the exit status ----

  ghost predicate AllSame(logs: seq<seq<Dump>>, lanes: seq<nat>, steps: seq<nat>, strip: string -> string, p: Parser)
    requires logs != []
  {
    && Selected(logs, lanes, steps) != {}
    && forall at <- Selected(logs, lanes, steps) :: SameAt(logs, at, strip, p)
  }

  ghost predicate AllReadRight(files: seq<seq<Line>>, logs: seq<seq<Dump>>, spans: seq<seq<Span>>) {
    |logs| == |spans| == |files| && forall g :: 0 <= g < |files| ==> ReadRight(files[g], logs[g], spans[g])
  }

  method CompareLogs(files: seq<seq<Line>>, lanes: seq<nat>, steps: seq<nat>, strip: string -> string, p: Parser)
    returns (exit: nat, ghost logs: seq<seq<Dump>>, ghost spans: seq<seq<Span>>)
    requires files != []
    ensures AllReadRight(files, logs, spans)
    ensures exit == 0 <==> AllSame(logs, lanes, steps, strip, p)
    ensures exit == 1 <==> exists at <- Selected(logs, lanes, steps) :: DifferAt(logs, at, strip, p)
    ensures exit <= 2
  {
    var dumps: seq<seq<Dump>> := [];
    spans := [];
    for g := 0 to |files|
      invariant AllReadRight(files[..g], dumps, spans)
    {
      var read, from := ReadDumps(files[g]);
      dumps, spans := dumps + [read], spans + [from];
    }
    assert files[..|files|] == files;
    logs := dumps;
    exit := Verdict(dumps, lanes, steps, strip, p);
  }

  /** What exit status 0 says of the logs: every capture selected is exactly what its
      lane wrote in a checkpoint that a trailer of the same step ends, counting every
      entry and leaving none out; it has its summary, no error and the rows this
      declares; every other game has a capture of that lane and step at the same
      occurrence; and these agree in their summaries and, name by name, in every
      entry's text after the fields left out. */
  lemma ExitZeroMeans(files: seq<seq<Line>>, logs: seq<seq<Dump>>, spans: seq<seq<Span>>, lanes: seq<nat>, steps: seq<nat>,
                      strip: string -> string, p: Parser, g: nat, k: nat)
    requires AllReadRight(files, logs, spans) && files != [] && AllSame(logs, lanes, steps, strip, p)
    requires g < |files| && k < |logs[g]|
    requires var d := logs[g][k];
             (lanes == [] || d.lane in lanes) && (steps == [] || d.step in steps)
    ensures var d, s := logs[g][k], spans[g][k];
            && Certified(files[g], d, s) && d.entries == LaneEntries(files[g][s.from..s.to], d.lane)
            && OneCheckpoint(files[g][s.from..s.to], d.step)
            && d.summary.Some? && d.error.None? && RowsMatch(d, p) && (forall vehicle :: RoutesMatch(d, p, vehicle))
            && Paired(logs, Place(d))
            && exists i :: 0 <= i < |CapturesOf(logs[0], Place(d))| && Aligned(logs, Place(d), i)[g] == d
                           && Agree(Aligned(logs, Place(d), i), strip)
  {
    var d := logs[g][k];
    var at := Place(d);
    assert logs[g] in logs && d in logs[g];
    assert at in Selected(logs, lanes, steps);
    assert ReadRight(files[g], logs[g], spans[g]) && Recorded(files[g], d, spans[g][k]);
    CapturesAre(logs[g], at, d);
    var i :| 0 <= i < |CapturesOf(logs[g], at)| && CapturesOf(logs[g], at)[i] == d;
    assert SameAt(logs, at, strip, p) && SameIn(Aligned(logs, at, i), strip, p);
    assert Aligned(logs, at, i)[g] == d;
    assert Complete(d, p);
    CompleteExactlyWhen(d, p);
  }

  /** And no entry of a selected lane and step escapes it: each is held by a capture so
      certified. */
  lemma ExitZeroCoversEveryEntry(files: seq<seq<Line>>, logs: seq<seq<Dump>>, spans: seq<seq<Span>>, lanes: seq<nat>,
                                 steps: seq<nat>, strip: string -> string, p: Parser, g: nat, i: nat)
    requires AllReadRight(files, logs, spans) && files != [] && AllSame(logs, lanes, steps, strip, p)
    requires g < |files| && i < |files[g]| && files[g][i].Entry?
    requires (lanes == [] || files[g][i].lane in lanes) && (steps == [] || files[g][i].step in steps)
    ensures exists k :: 0 <= k < |logs[g]| && Holding(files[g], logs[g][k], spans[g][k], i)
                        && Certified(files[g], logs[g][k], spans[g][k])
  {
    assert ReadRight(files[g], logs[g], spans[g]);
    EachEntryInOneDump(files[g], logs[g], spans[g], i);
    var k :| 0 <= k < |logs[g]| && Holding(files[g], logs[g][k], spans[g][k], i);
    ExitZeroMeans(files, logs, spans, lanes, steps, strip, p, g, k);
  }
}
