/** Why a capture may lack entries (tools/lane_diff.py, `Dump.issues`). How a text is
    parsed is left to a parser; what is counted and compared is not. */
module LaneIssues {
  import opened Protocol
  import opened LaneDumps

  /** A field's text: a number when it is all digits. */
  datatype Value = Number(n: nat) | Text

  /** What the tool's patterns say of a row's name, of its text, and of a summary. */
  datatype Parser = Parser(
    isRecord: string -> bool,
    pathOf: string -> Option<string>,
    detailOf: string -> Option<string>,
    routeRecords: string -> Option<Value>,
    routeOmitted: string -> Option<Value>,
    rowCount: string -> Option<nat>)

  datatype Issue =
    | Checkpoint(issue: BatchIssue)
    | ReadFailed
    | NoSummary
    | NotEnded
    | Rows(declared: nat, captured: nat)
    | People(captured: nat)
    | Routes(vehicle: string, declared: nat, captured: nat)
    | Omitted(vehicle: string, count: nat)

  const PEOPLE: string := "people"

  /** Lanes whose summary begins with how many rows they have. */
  predicate CountsRows(lane: nat) { lane == 0 || lane == 1 || lane == 2 || lane == 3 || lane == 5 }

  // ---- What the entries hold ----

  function RowsCaptured(entries: seq<(Key, string)>, p: Parser): nat {
    if entries == [] then 0
    else
      var key := entries[|entries| - 1].0;
      RowsCaptured(entries[..|entries| - 1], p) + if key.Row? && !p.isRecord(key.name) then 1 else 0
  }

  function Named(entries: seq<(Key, string)>, name: string): nat {
    if entries == [] then 0
    else Named(entries[..|entries| - 1], name) + if entries[|entries| - 1].0 == Row(name) then 1 else 0
  }

  /** The route records captured of a vehicle. */
  function PathsOf(entries: seq<(Key, string)>, p: Parser, vehicle: string): nat {
    if entries == [] then 0
    else
      var key := entries[|entries| - 1].0;
      PathsOf(entries[..|entries| - 1], p, vehicle) + if key.Row? && p.pathOf(key.name) == Some(vehicle) then 1 else 0
  }

  const VEHICLE: string := "vehicle-"

  /** Which vehicle's fields a row holds. */
  function Describes(key: Key, p: Parser): Option<string> {
    if !key.Row? || p.pathOf(key.name).Some? then None
    else if p.detailOf(key.name).Some? then p.detailOf(key.name)
    else if VEHICLE <= key.name && '/' !in key.name then Some(key.name)
    else None
  }

  /** A vehicle's field as its latest row that has it says. */
  function Field(entries: seq<(Key, string)>, p: Parser, vehicle: string, field: string -> Option<Value>): Option<Value> {
    if entries == [] then None
    else
      var (key, rest) := entries[|entries| - 1];
      if Describes(key, p) == Some(vehicle) && field(rest).Some? then field(rest)
      else Field(entries[..|entries| - 1], p, vehicle, field)
  }

  // What these counts and fields mean, entry by entry.

  type Entry = (Key, string)

  function RowEntry(p: Parser): Entry -> bool { (e: Entry) => e.0.Row? && !p.isRecord(e.0.name) }

  function NamedEntry(name: string): Entry -> bool { (e: Entry) => e.0 == Row(name) }

  function PathEntry(p: Parser, vehicle: string): Entry -> bool {
    (e: Entry) => e.0.Row? && p.pathOf(e.0.name) == Some(vehicle)
  }

  /** The places where an entry is such a one. */
  function Where<X>(s: seq<X>, q: X -> bool): set<int> { set i | 0 <= i < |s| && q(s[i]) }

  lemma OneMoreWhere<X>(s: seq<X>, q: X -> bool)
    requires |s| > 0
    ensures var n := |s| - 1;
            |Where(s, q)| == |Where(s[..n], q)| + if q(s[n]) then 1 else 0
  {
    var n := |s| - 1;
    assert Where(s, q) == Where(s[..n], q) + if q(s[n]) then {n} else {};
  }

  /** Rows, aggregates and route records are counted one for each entry that is one. */
  lemma {:induction false} CountsEachRow(entries: seq<Entry>, p: Parser)
    ensures RowsCaptured(entries, p) == |Where(entries, RowEntry(p))|
  {
    if entries != [] {
      CountsEachRow(entries[..|entries| - 1], p);
      OneMoreWhere(entries, RowEntry(p));
    }
  }

  lemma {:induction false} CountsEachNamed(entries: seq<Entry>, name: string)
    ensures Named(entries, name) == |Where(entries, NamedEntry(name))|
  {
    if entries != [] {
      CountsEachNamed(entries[..|entries| - 1], name);
      OneMoreWhere(entries, NamedEntry(name));
    }
  }

  lemma {:induction false} CountsEachPath(entries: seq<Entry>, p: Parser, vehicle: string)
    ensures PathsOf(entries, p, vehicle) == |Where(entries, PathEntry(p, vehicle))|
  {
    if entries != [] {
      CountsEachPath(entries[..|entries| - 1], p, vehicle);
      OneMoreWhere(entries, PathEntry(p, vehicle));
    }
  }

  /** Whether the entry gives the vehicle's field. */
  predicate GivesField(e: Entry, p: Parser, vehicle: string, field: string -> Option<Value>) {
    Describes(e.0, p) == Some(vehicle) && field(e.1).Some?
  }

  /** A vehicle's field is what the last entry that gives it says, and unknown only when
      none does. */
  lemma {:induction false} FieldIsTheLast(entries: seq<Entry>, p: Parser, vehicle: string, field: string -> Option<Value>)
    ensures match Field(entries, p, vehicle, field)
            case Some(v) =>
              exists i :: 0 <= i < |entries| && GivesField(entries[i], p, vehicle, field) && field(entries[i].1) == Some(v)
                          && forall j :: i < j < |entries| ==> !GivesField(entries[j], p, vehicle, field)
            case None => forall j :: 0 <= j < |entries| ==> !GivesField(entries[j], p, vehicle, field)
  {
    if entries != [] {
      var n := |entries| - 1;
      if GivesField(entries[n], p, vehicle, field) {
        assert Field(entries, p, vehicle, field) == field(entries[n].1);
      } else {
        FieldIsTheLast(entries[..n], p, vehicle, field);
        assert forall j :: 0 <= j < n ==> entries[..n][j] == entries[j];
      }
    }
  }

  // ---- What is wrong with a capture ----

  predicate IsIssue(x: Issue, d: Dump, p: Parser) {
    match x
    case Checkpoint(issue) => issue in d.batchIssues
    case ReadFailed => d.error.Some?
    case NoSummary => d.error.None? && d.summary.None?
    case NotEnded => d.error.None? && d.summary.Some? && !d.closed
    case Rows(declared, captured) =>
      && d.summary.Some? && CountsRows(d.lane) && p.rowCount(d.summary.value) == Some(declared)
      && captured == RowsCaptured(d.entries, p) && declared != captured
    case People(captured) =>
      d.summary.Some? && d.lane == 6 && captured == Named(d.entries, PEOPLE) && captured != 1
    case Routes(vehicle, declared, captured) =>
      && Field(d.entries, p, vehicle, p.routeRecords) == Some(Number(declared))
      && captured == PathsOf(d.entries, p, vehicle) && declared != captured
    case Omitted(vehicle, count) =>
      Field(d.entries, p, vehicle, p.routeOmitted) == Some(Number(count)) && count > 0
  }

  /** No reason is known why the capture may lack entries. */
  ghost predicate Complete(d: Dump, p: Parser) { forall x :: !IsIssue(x, d, p) }

  /** As many route records were captured of the vehicle as it declares, and it
      declares none left out. */
  predicate RoutesMatch(d: Dump, p: Parser, vehicle: string) {
    && (match Field(d.entries, p, vehicle, p.routeRecords)
        case Some(Number(n)) => n == PathsOf(d.entries, p, vehicle)
        case _ => true)
    && (match Field(d.entries, p, vehicle, p.routeOmitted)
        case Some(Number(n)) => n == 0
        case _ => true)
  }

  /** As many rows were captured as the summary declares. */
  predicate RowsMatch(d: Dump, p: Parser)
    requires d.summary.Some?
  {
    && (CountsRows(d.lane) && p.rowCount(d.summary.value).Some? ==>
          p.rowCount(d.summary.value).value == RowsCaptured(d.entries, p))
    && (d.lane == 6 ==> Named(d.entries, PEOPLE) == 1)
  }

  /** What being complete comes to: the checkpoint has no issue, the lane was read to
      its summary, and whatever the summary and the vehicles declare was captured. */
  lemma CompleteExactlyWhen(d: Dump, p: Parser)
    ensures Complete(d, p) <==>
              && d.batchIssues == [] && d.error.None? && d.summary.Some? && d.closed
              && RowsMatch(d, p) && forall vehicle :: RoutesMatch(d, p, vehicle)
  {
    if Complete(d, p) {
      NothingDeclaredIsMissing(d, p);
    } else {
      var x :| IsIssue(x, d, p);
      assert x.Routes? ==> !RoutesMatch(d, p, x.vehicle);
      assert x.Omitted? ==> !RoutesMatch(d, p, x.vehicle);
    }
  }

  lemma NothingDeclaredIsMissing(d: Dump, p: Parser)
    requires Complete(d, p)
    ensures d.batchIssues == [] && d.error.None? && d.summary.Some? && d.closed
    ensures RowsMatch(d, p) && forall vehicle :: RoutesMatch(d, p, vehicle)
  {
    if d.batchIssues != [] {
      assert IsIssue(Checkpoint(d.batchIssues[0]), d, p);
    }
    assert !IsIssue(ReadFailed, d, p) && !IsIssue(NoSummary, d, p) && !IsIssue(NotEnded, d, p);
    if CountsRows(d.lane) && p.rowCount(d.summary.value).Some? {
      assert !IsIssue(Rows(p.rowCount(d.summary.value).value, RowsCaptured(d.entries, p)), d, p);
    }
    assert !IsIssue(People(Named(d.entries, PEOPLE)), d, p);
    forall vehicle ensures RoutesMatch(d, p, vehicle) {
      var records, omitted := Field(d.entries, p, vehicle, p.routeRecords), Field(d.entries, p, vehicle, p.routeOmitted);
      if records.Some? && records.value.Number? {
        assert !IsIssue(Routes(vehicle, records.value.n, PathsOf(d.entries, p, vehicle)), d, p);
      }
      if omitted.Some? && omitted.value.Number? {
        assert !IsIssue(Omitted(vehicle, omitted.value.n), d, p);
      }
    }
  }

  // ---- Finding it ----

  /** What a vehicle's rows said so far of its route records. */
  datatype Said = Said(records: Option<Value>, omitted: Option<Value>)

  function Updated(said: Said, rest: string, p: Parser): Said {
    Said(if p.routeRecords(rest).Some? then p.routeRecords(rest) else said.records,
         if p.routeOmitted(rest).Some? then p.routeOmitted(rest) else said.omitted)
  }

  /** The route records counted, and the vehicles' fields, of these entries. */
  ghost predicate Gathered(entries: seq<(Key, string)>, p: Parser, paths: map<string, int>, vehicles: map<string, Said>) {
    && (forall v :: PathsOf(entries, p, v) == if v in paths then paths[v] else 0)
    && (forall v :: (if v in vehicles then vehicles[v] else Said(None, None))
                    == Said(Field(entries, p, v, p.routeRecords), Field(entries, p, v, p.routeOmitted)))
  }

  lemma GatherMore(entries: seq<(Key, string)>, p: Parser, paths: map<string, int>, vehicles: map<string, Said>,
                   key: Key, rest: string)
    requires Gathered(entries, p, paths, vehicles)
    ensures Gathered(entries + [(key, rest)], p, PathsNow(paths, p, key), VehiclesNow(vehicles, p, key, rest))
  {
    assert (entries + [(key, rest)])[..|entries|] == entries;
  }

  function PathsNow(paths: map<string, int>, p: Parser, key: Key): map<string, int> {
    if key.Row? && p.pathOf(key.name).Some? then
      var v := p.pathOf(key.name).value;
      paths[v := (if v in paths then paths[v] else 0) + 1]
    else paths
  }

  function VehiclesNow(vehicles: map<string, Said>, p: Parser, key: Key, rest: string): map<string, Said> {
    if Describes(key, p).Some? then
      var v := Describes(key, p).value;
      vehicles[v := Updated(if v in vehicles then vehicles[v] else Said(None, None), rest, p)]
    else vehicles
  }

  method Gather(entries: seq<(Key, string)>, p: Parser) returns (paths: map<string, int>, vehicles: map<string, Said>)
    ensures Gathered(entries, p, paths, vehicles)
  {
    paths, vehicles := map[], map[];
    for i := 0 to |entries|
      invariant Gathered(entries[..i], p, paths, vehicles)
    {
      var (key, rest) := entries[i];
      GatherMore(entries[..i], p, paths, vehicles, key, rest);
      assert entries[..i + 1] == entries[..i] + [(key, rest)];
      paths, vehicles := PathsNow(paths, p, key), VehiclesNow(vehicles, p, key, rest);
    }
    assert entries[..|entries|] == entries;
  }

  predicate OfVehicles(x: Issue) { x.Routes? || x.Omitted? }

  /** What is wrong with a capture's route records. */
  method RouteIssues(d: Dump, p: Parser) returns (issues: seq<Issue>)
    ensures forall x :: x in issues <==> OfVehicles(x) && IsIssue(x, d, p)
  {
    var paths, vehicles := Gather(d.entries, p);
    issues := [];
    var left := vehicles.Keys;
    while left != {}
      invariant left <= vehicles.Keys
      invariant forall x :: x in issues <==> OfVehicles(x) && IsIssue(x, d, p) && x.vehicle in vehicles.Keys - left
      decreases |left|
    {
      var v :| v in left;
      var more := OfOne(d, p, v, vehicles[v], if v in paths then paths[v] else 0);
      issues, left := issues + more, left - {v};
    }
  }

  method OfOne(d: Dump, p: Parser, v: string, said: Said, captured: int) returns (issues: seq<Issue>)
    requires said == Said(Field(d.entries, p, v, p.routeRecords), Field(d.entries, p, v, p.routeOmitted))
    requires captured == PathsOf(d.entries, p, v)
    ensures forall x :: x in issues <==> OfVehicles(x) && IsIssue(x, d, p) && x.vehicle == v
  {
    issues := [];
    if said.records.Some? && said.records.value.Number? && said.records.value.n != captured {
      issues := [Routes(v, said.records.value.n, captured)];
    }
    if said.omitted.Some? && said.omitted.value.Number? && said.omitted.value.n > 0 {
      issues := issues + [Omitted(v, said.omitted.value.n)];
    }
  }

  predicate OfReading(x: Issue) { x.ReadFailed? || x.NoSummary? || x.NotEnded? }

  method ReadingIssues(d: Dump, p: Parser) returns (issues: seq<Issue>)
    ensures forall x :: x in issues <==> OfReading(x) && IsIssue(x, d, p)
  {
    if d.error.Some? {
      return [ReadFailed];
    }
    if d.summary.None? {
      return [NoSummary];
    }
    return if !d.closed then [NotEnded] else [];
  }

  predicate OfCounts(x: Issue) { x.Rows? || x.People? }

  method CountIssues(d: Dump, p: Parser) returns (issues: seq<Issue>)
    ensures forall x :: x in issues <==> OfCounts(x) && IsIssue(x, d, p)
  {
    issues := [];
    if d.summary.Some? && CountsRows(d.lane) {
      var count := p.rowCount(d.summary.value);
      if count.Some? && count.value != RowsCaptured(d.entries, p) {
        issues := [Rows(count.value, RowsCaptured(d.entries, p))];
      }
    } else if d.summary.Some? && d.lane == 6 {
      var captured := Named(d.entries, PEOPLE);
      if captured != 1 {
        issues := [People(captured)];
      }
    }
  }

  /** Everything that is wrong with a capture, and nothing else. */
  method Issues(d: Dump, p: Parser) returns (issues: seq<Issue>)
    ensures forall x :: x in issues <==> IsIssue(x, d, p)
  {
    var batch := seq(|d.batchIssues|, i requires 0 <= i < |d.batchIssues| => Checkpoint(d.batchIssues[i]));
    assert forall x :: x in batch <==> x.Checkpoint? && IsIssue(x, d, p) by {
      forall issue | issue in d.batchIssues ensures Checkpoint(issue) in batch {
        var i :| 0 <= i < |d.batchIssues| && d.batchIssues[i] == issue;
        assert batch[i] == Checkpoint(issue);
      }
    }
    var reading := ReadingIssues(d, p);
    var counts := CountIssues(d, p);
    var routes := RouteIssues(d, p);
    issues := batch + reading + counts + routes;
  }
}
