/** The fields of a hand-over, updated in place: each
    method is its function in `StartSave`. */
module StartDesk {
  import opened Protocol
  import S = StartSave
  import opened StartSave

  class Owner {
    var start: Start
    var attempt: nat
    var held: Option<Snapshot>
    var told: Option<(Snapshot, Stamp)>
    var file: Option<File>
    var name: Name
    const keepsWorlds: bool
    var begun: bool
    var lobby: bool
    var owner: bool
    var shown: Option<Name>

    ghost function Abs(): Desk
      reads this
    {
      Desk(start, attempt, held, told, file, name, keepsWorlds, begun, lobby, owner, shown)
    }

    constructor (file: Option<File>, name: Name, keepsWorlds: bool, lobby: bool, owner: bool)
      ensures Abs() == Initial(file, name, keepsWorlds, lobby, owner)
    {
      this.file, this.name, this.keepsWorlds, this.lobby, this.owner := file, name, keepsWorlds, lobby, owner;
      start := if file.Some? then Named else Idle;
      attempt, held, told, begun, shown := 0, None, None, false, None;
    }

    method HandOver() returns (jobs: seq<Job>)
      modifies `start
      ensures (Abs(), jobs) == S.HandOver(old(Abs()))
    {
      if start != Named {
        return [];
      }
      if begun {
        start := Idle;
        return [];
      }
      if !lobby || !owner {
        return [];
      }
      if !keepsWorlds || file.None? {
        start := Idle;
        return [];
      }
      start := Cutting;
      return [Cut(attempt, file.value)];
    }

    method Change(save: Option<(File, Name)>, stamp: Option<Stamp>) returns (jobs: seq<Job>)
      modifies this
      ensures (Abs(), jobs) == S.Change(old(Abs()), save, stamp)
    {
      if begun || !lobby || !owner {
        return [];
      }
      if save.Some? && told.Some? && (start.Told? || start.Uploaded?)
         && file == Some(save.value.0) && stamp == Some(told.value.1)
      {
        name := save.value.1;
        return [Describe(told.value.0, name)];
      }
      attempt := attempt + 1;
      told := None;
      match save {
        case Some((f, n)) =>
          file, name, start := Some(f), n, Named;
          jobs := HandOver();
        case None =>
          file, name, start, held := None, NO_NAME, Clearing, None;
          jobs := [TakeBack(attempt)];
      }
    }

    method StartFailed()
      modifies `start, `held, `told
      ensures Abs() == Failed(old(Abs()))
    {
      start, held, told := Idle, None, None;
    }

    method StartArrived(s: Snapshot)
      modifies `start, `held
      ensures Abs() == Arrived(old(Abs()), s)
    {
      start, held := Uploaded(s), Some(s);
    }

    method OnDone(done: Done) returns (jobs: seq<Job>)
      modifies `start, `held, `told
      ensures (Abs(), jobs) == S.OnDone(old(Abs()), done)
    {
      jobs := [];
      match done {
        case UploadDone(s, ok) =>
          var starting := start == Told(s);
          if ok && starting {
            StartArrived(s);
          } else if starting {
            StartFailed();
          }
        case StartCut(of, cut) =>
          if start != Cutting || of != attempt {
            return;
          }
          match cut {
            case Ok((s, stamp)) =>
              told := if stamp.Some? then Some((s, stamp.value)) else None;
              start := Told(s);
              jobs := [Tell(attempt, s, name)];
              if held == Some(s) {
                StartArrived(s);
              } else {
                held := None;
              }
            case Err(_) =>
              StartFailed();
          }
        case StartRefused(of) =>
          if start.Told? && of == attempt {
            StartFailed();
          }
        case StartCleared(of) =>
          if of == attempt && start == Clearing {
            start := Idle;
          }
      }
    }

    method OnView(v: View)
      modifies `start, `held, `told, `lobby, `owner, `shown
      ensures Abs() == S.OnView(old(Abs()), v)
    {
      if start.Told? && v.owner && v.lobby && v.start.None? && shown == Some(name) {
        StartFailed();
      }
      lobby, owner, shown := v.lobby, v.owner, v.start;
    }
  }
}
