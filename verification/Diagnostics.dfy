/** The queue and the switch of `DiagnosticsSpec`, updated in place. */
module Diagnostics {
  import opened Protocol
  import D = DiagnosticsSpec
  import opened DiagnosticsSpec

  class LineQueue<T> {
    var lines: seq<Line<T>>
    const kept: nat
    const quota: nat
    var taken: nat
    var dropped: nat

    ghost function Abs(): Queue<T>
      reads this
    {
      Queue(lines, kept, quota, taken, dropped)
    }

    constructor (kept: nat, quota: nat)
      ensures Abs() == Empty(kept, quota)
    {
      lines, this.kept, this.quota, taken, dropped := [], kept, quota, 0, 0;
    }

    method Push(line: Line<T>)
      modifies this
      ensures Abs() == D.Push(old(Abs()), line)
    {
      taken := taken + line.size;
      if taken > quota {
        dropped := dropped + 1;
        return;
      }
      if |lines| >= kept {
        if lines != [] {
          lines := lines[1..];
        }
        dropped := dropped + 1;
      }
      lines := lines + [line];
    }

    method Clear()
      modifies `lines
      ensures Abs() == old(Abs()).(lines := [])
    {
      lines := [];
    }

    /** Removes and returns a batch from the front. */
    method Take() returns (batch: seq<Line<T>>)
      modifies `lines
      ensures Abs() == Taken(old(Abs())) && batch == Batch(old(Abs()))
    {
      var count := if |lines| < MAX_DIAGNOSTIC_EVENTS then |lines| else MAX_DIAGNOSTIC_EVENTS;
      batch, lines := lines[..count], lines[count..];
    }

    /** Undoes a `Take`, as far as there is room, walking the batch from its end. */
    method PutBack(batch: seq<Line<T>>)
      modifies this
      ensures Abs() == D.PutBack(old(Abs()), batch)
    {
      assert batch[..|batch|] == batch;
      for i := |batch| downto 0
        invariant D.PutBack(Abs(), batch[..i]) == D.PutBack(old(Abs()), batch)
      {
        assert batch[..i + 1][..i] == batch[..i];
        if |lines| >= kept {
          dropped := dropped + 1;
          continue;
        }
        lines := [batch[i]] + lines;
      }
    }
  }

  class Switch<T> {
    var on: bool
    var generation: nat
    const queue: LineQueue<T>

    ghost function Abs(): Recorder<T>
      reads this, queue
    {
      Recorder(on, generation, queue.Abs())
    }

    constructor ()
      ensures Abs() == NewRecorder() && fresh(queue)
    {
      on, generation := true, 0;
      queue := new LineQueue<T>(KEPT, RUN_QUOTA);
    }

    method SetOn(on: bool)
      modifies this, queue
      ensures Abs() == D.SetOn(old(Abs()), on)
    {
      if this.on != on {
        generation := generation + 1;
        this.on := on;
      }
      if !on {
        queue.Clear();
      }
    }

    method Record(recording: Recording, line: Line<T>)
      modifies queue
      ensures Abs() == RecordLine(old(Abs()), recording, line)
    {
      if on && generation == recording.generation {
        queue.Push(line);
      }
    }

    method Take(recording: Recording) returns (lines: seq<Line<T>>)
      modifies queue
      ensures var (r, batch) := TakeLines(old(Abs()), recording);
              Abs() == r && lines == batch
    {
      if !on || generation != recording.generation {
        return [];
      }
      ghost var before := queue.Abs();
      lines := queue.Take();
      assert queue.Abs() == Taken(before) && lines == Batch(before);
    }

    method PutBack(recording: Recording, lines: seq<Line<T>>)
      modifies queue
      ensures Abs() == PutLinesBack(old(Abs()), recording, lines)
    {
      if on && generation == recording.generation {
        queue.PutBack(lines);
      }
    }
  }
}
