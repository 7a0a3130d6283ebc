/** When rejoining a room stops (crates/tpf3mp-agent/src/bridge.rs, `Losses`),
    over whole sessions. Times are in seconds. */
module Rejoin {
  import opened Protocol

  const STABLE: nat := 120
  const MAX_QUICK_LOSSES: nat := 5

  datatype Losses = Losses(patience: nat, connected: nat, first: Option<nat>, quick: nat)

  datatype Why = DroppedAgain(times: nat) | NoneHeld(patience: nat)

  /** The counters after a loss, and the deadline it is granted or why it is not. */
  function Lost(l: Losses, now: nat): (Losses, Result<nat, Why>) {
    var held := now >= l.connected && now - l.connected >= STABLE;
    var m := if held then l.(first := None, quick := 0) else l.(quick := l.quick + 1);
    if m.quick > MAX_QUICK_LOSSES then (m, Err(DroppedAgain(m.quick)))
    else
      var n := m.(first := Some(if m.first.Some? then m.first.value else now));
      var deadline := n.first.value + l.patience;
      (n, if deadline <= now then Err(NoneHeld(l.patience)) else Ok(deadline))
  }

  /** One connection after another: lost, then made again. */
  datatype Outage = Outage(lost: nat, back: nat)

  function Began(connected: nat, patience: nat): Losses { Losses(patience, connected, None, 0) }

  /** After `outages`, all of them granted a deadline; none when one was refused. */
  function Session(connected: nat, patience: nat, outages: seq<Outage>): Option<Losses> {
    if outages == [] then Some(Began(connected, patience))
    else
      var o := outages[|outages| - 1];
      match Session(connected, patience, outages[..|outages| - 1])
      case None => None
      case Some(l) =>
        match Lost(l, o.lost)
        case (m, Err(_)) => None
        case (m, Ok(_)) => Some(m.(connected := o.back))
  }

  function Deadline(connected: nat, patience: nat, outages: seq<Outage>): nat
    requires outages != [] && Session(connected, patience, outages).Some?
  {
    Lost(Session(connected, patience, outages[..|outages| - 1]).value, outages[|outages| - 1].lost).1.value
  }

  /** When the connection lost at the `i`th outage was made. */
  function MadeAt(connected: nat, outages: seq<Outage>, i: int): nat
    requires 0 <= i < |outages|
  {
    if i == 0 then connected else outages[i - 1].back
  }

  ghost predicate HeldBefore(connected: nat, outages: seq<Outage>, i: int)
    requires 0 <= i < |outages|
  {
    outages[i].lost >= MadeAt(connected, outages, i) && outages[i].lost - MadeAt(connected, outages, i) >= STABLE
  }

  /** Where the stretch of losses that the `i`th belongs to began: at the loss of a
      connection that held, or at the session's first loss. */
  ghost function StretchStart(connected: nat, outages: seq<Outage>, i: nat): (k: nat)
    requires i < |outages|
    ensures k <= i && (k == 0 || HeldBefore(connected, outages, k))
    ensures forall j :: k < j <= i ==> !HeldBefore(connected, outages, j)
  {
    if i == 0 || HeldBefore(connected, outages, i) then i else StretchStart(connected, outages, i - 1)
  }

  /** The `i`th loss of its stretch that comes right after rejoining. */
  ghost function QuickIn(connected: nat, outages: seq<Outage>, i: nat): nat
    requires i < |outages|
  {
    var k := StretchStart(connected, outages, i);
    i - k + if HeldBefore(connected, outages, k) then 0 else 1
  }

  lemma SameStretch(connected: nat, outages: seq<Outage>, n: nat, i: nat)
    requires i < n <= |outages|
    ensures StretchStart(connected, outages[..n], i) == StretchStart(connected, outages, i)
    ensures QuickIn(connected, outages[..n], i) == QuickIn(connected, outages, i)
    decreases i
  {
    assert forall j :: 0 <= j <= i ==>
      MadeAt(connected, outages[..n], j) == MadeAt(connected, outages, j) && outages[..n][j] == outages[j];
    if i > 0 {
      SameStretch(connected, outages, n, i - 1);
    }
  }

  /** What the losses hold after a session's last: the first of the stretch, and
      how many came right after rejoining. */
  lemma {:induction false} AfterSession(connected: nat, patience: nat, outages: seq<Outage>)
    requires outages != [] && Session(connected, patience, outages).Some?
    ensures var l, i := Session(connected, patience, outages).value, |outages| - 1;
            && l.connected == outages[i].back && l.patience == patience
            && l.first == Some(outages[StretchStart(connected, outages, i)].lost)
            && l.quick == QuickIn(connected, outages, i)
    decreases |outages|
  {
    var i := |outages| - 1;
    if i > 0 {
      AfterSession(connected, patience, outages[..i]);
      SameStretch(connected, outages, i, i - 1);
      assert outages[..i][i - 1] == outages[i - 1];
      var k := StretchStart(connected, outages, i - 1);
      assert outages[..i][k] == outages[k];
    } else {
      assert outages[..0] == [];
    }
  }

  /** Every deadline granted in a stretch is the same instant, the stretch's first
      loss plus the patience, and still ahead; and a stretch is granted at most
      `MAX_QUICK_LOSSES` deadlines, plus one for the loss of a connection that
      held. So between connections that hold, rejoining ends after the patience
      or after that many losses, whichever comes first. */
  lemma RejoiningIsBounded(connected: nat, patience: nat, outages: seq<Outage>)
    requires outages != [] && Session(connected, patience, outages).Some?
    ensures var i := |outages| - 1;
            var k := StretchStart(connected, outages, i);
            && Deadline(connected, patience, outages) == outages[k].lost + patience
            && outages[i].lost < outages[k].lost + patience
            && i - k + 1 <= MAX_QUICK_LOSSES + if HeldBefore(connected, outages, k) then 1 else 0
  {
    var i := |outages| - 1;
    AfterSession(connected, patience, outages);
    assert Session(connected, patience, outages[..i]).Some?;
    QuickWithin(connected, patience, outages);
  }

  lemma QuickWithin(connected: nat, patience: nat, outages: seq<Outage>)
    requires outages != [] && Session(connected, patience, outages).Some?
    ensures Session(connected, patience, outages).value.quick <= MAX_QUICK_LOSSES
  {
  }

  /** A loss is refused exactly when it is one too many of its stretch, or the
      patience since the stretch's first has run out. */
  lemma RefusedExactlyWhen(connected: nat, patience: nat, outages: seq<Outage>)
    requires outages != [] && Session(connected, patience, outages[..|outages| - 1]).Some?
    ensures var i := |outages| - 1;
            Session(connected, patience, outages).None? <==>
              || QuickIn(connected, outages, i) > MAX_QUICK_LOSSES
              || outages[StretchStart(connected, outages, i)].lost + patience <= outages[i].lost
  {
    var i := |outages| - 1;
    if i > 0 {
      AfterSession(connected, patience, outages[..i]);
      SameStretch(connected, outages, i, i - 1);
      var k := StretchStart(connected, outages, i - 1);
      assert outages[..i][k] == outages[k] && outages[..i][i - 1] == outages[i - 1];
    } else {
      assert outages[..0] == [];
    }
  }

  /** And the reason given is true: how many times the connection was lost again in its
      stretch, or how long rejoining was to be tried at most. */
  lemma RefusedForWhatIsNamed(connected: nat, patience: nat, outages: seq<Outage>)
    requires outages != [] && Session(connected, patience, outages[..|outages| - 1]).Some?
    requires Session(connected, patience, outages).None?
    ensures var i := |outages| - 1;
            match Lost(Session(connected, patience, outages[..i]).value, outages[i].lost).1.error
            case DroppedAgain(times) => times == QuickIn(connected, outages, i) > MAX_QUICK_LOSSES
            case NoneHeld(patient) =>
              && patient == patience && QuickIn(connected, outages, i) <= MAX_QUICK_LOSSES
              && outages[StretchStart(connected, outages, i)].lost + patience <= outages[i].lost
  {
    var i := |outages| - 1;
    if i > 0 {
      AfterSession(connected, patience, outages[..i]);
      SameStretch(connected, outages, i, i - 1);
      var k := StretchStart(connected, outages, i - 1);
      assert outages[..i][k] == outages[k] && outages[..i][i - 1] == outages[i - 1];
    } else {
      assert outages[..0] == [];
    }
  }

  /** The losses of a session, updated in place. */
  class Tracker {
    const patience: nat
    var connected: nat
    var first: Option<nat>
    var quick: nat

    ghost function Abs(): Losses
      reads this
    {
      Losses(patience, connected, first, quick)
    }

    constructor (patience: nat, connected: nat)
      ensures Abs() == Began(connected, patience)
    {
      this.patience, this.connected, first, quick := patience, connected, None, 0;
    }

    method Lose(now: nat) returns (r: Result<nat, Why>)
      modifies this
      ensures (Abs(), r) == Lost(old(Abs()), now)
    {
      if now >= connected && now - connected >= STABLE {
        first, quick := None, 0;
      } else {
        quick := quick + 1;
      }
      if quick > MAX_QUICK_LOSSES {
        return Err(DroppedAgain(quick));
      }
      if first.None? {
        first := Some(now);
      }
      var deadline := first.value + patience;
      if deadline <= now {
        return Err(NoneHeld(patience));
      }
      return Ok(deadline);
    }

    method Connect(now: nat)
      modifies `connected
      ensures Abs() == old(Abs()).(connected := now)
    {
      connected := now;
    }
  }
}
