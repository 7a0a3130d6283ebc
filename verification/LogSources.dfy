/** A followed log feeding the recorder: each look goes by the setting it began under (crates/tpf3mp-agent/src/game_logs.rs, `Sources`). */
module LogSources {
  import opened Protocol
  import D = DiagnosticsSpec
  import L = LogTail
  import Diagnostics
  import LogReader

  /** The lines of a look, recorded one after another. */
  function Recorded<R>(r: D.Recorder<R>, recording: D.Recording, lines: seq<R>, size: R -> nat): D.Recorder<R> {
    if |lines| == 0 then r
    else
      var last := lines[|lines| - 1];
      D.RecordLine(Recorded(r, recording, lines[..|lines| - 1], size), recording, D.Line(size(last), last))
  }

  function Weighed<R>(lines: seq<R>, size: R -> nat): seq<D.Line<R>> {
    seq(|lines|, i requires 0 <= i < |lines| => D.Line(size(lines[i]), lines[i]))
  }

  /** A look's lines are pushed in order while its setting stands, and come to nothing once
      it was left. */
  lemma {:induction false} LinesArePushed<R>(r: D.Recorder<R>, recording: D.Recording, lines: seq<R>, size: R -> nat)
    ensures Recorded(r, recording, lines, size)
            == if D.Holds(r, recording) then r.(queue := D.PushAll(r.queue, Weighed(lines, size))) else r
  {
    if |lines| > 0 {
      var n := |lines| - 1;
      LinesArePushed(r, recording, lines[..n], size);
      assert Weighed(lines, size)[..n] == Weighed(lines[..n], size);
    }
  }

  /** One log of them. */
  class Source<T, R> {
    const log: LogReader.Follower<T, R>
    var generation: nat

    constructor (log: LogReader.Follower<T, R>)
      ensures this.log == log && generation == 0
    {
      this.log, generation := log, 0;
    }

    /** Records what was added since the last look, or passes it over unread: while
        diagnostics are off, and once after they were. */
    method Record(switch: Diagnostics.Switch<R>, meta: Option<L.Meta>, content: Option<seq<T>>, now: real, size: R -> nat)
      returns (skipped: nat)
      requires L.Within(log.budget.Abs())
      modifies this, log, log.budget, switch.queue
      ensures var recording := D.Begin(old(switch.Abs()));
              if !recording.on || recording.generation != old(generation) then
                && log.Abs() == L.SkipToEnd(old(log.Abs()), meta) && generation == recording.generation
                && switch.Abs() == old(switch.Abs()) && skipped == 0
              else
                var (t, polled) := L.Poll(old(log.Abs()), meta, content, now, log.nl);
                && log.Abs() == t && generation == old(generation) && skipped == L.Skipped(polled.chunks)
                && switch.Abs() == Recorded(old(switch.Abs()), recording, L.Shown(polled.chunks, log.show), size)
    {
      var recording := D.Recording(switch.on, switch.generation);
      if !recording.on || recording.generation != generation {
        log.SkipToEnd(meta);
        generation := recording.generation;
        return 0;
      }
      var lines;
      lines, skipped := log.Poll(meta, content, now);
      ghost var before := switch.Abs();
      for i := 0 to |lines|
        invariant switch.Abs() == Recorded(before, recording, lines[..i], size)
        invariant log.Abs() == L.Poll(old(log.Abs()), meta, content, now, log.nl).0
        invariant generation == old(generation)
      {
        assert lines[..i + 1][..i] == lines[..i];
        switch.Record(recording, D.Line(size(lines[i]), lines[i]));
      }
      assert lines[..|lines|] == lines;
    }
  }
}
