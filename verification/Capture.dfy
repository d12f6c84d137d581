/** Capturing the output of a task: two reader threads share one byte budget, `_BoundedCapture`. */
module Capture {
  import opened Common

  datatype Stream = Stdout | Stderr

  /** One locked step of a reader thread: the chunk it read from its stream. */
  datatype Chunk = Chunk(stream: Stream, bytes: seq<Byte>)

  datatype Captured = Captured(remaining: nat, stdout: seq<Byte>, stderr: seq<Byte>, truncated: bool)

  /** One step: as much of the chunk as the budget still allows. */
  function Step(c: Captured, chunk: Chunk): Captured {
    var accepted := chunk.bytes[..Min(c.remaining, |chunk.bytes|)];
    Captured(c.remaining - |accepted|,
             if chunk.stream.Stdout? then c.stdout + accepted else c.stdout,
             if chunk.stream.Stderr? then c.stderr + accepted else c.stderr,
             c.truncated || |accepted| < |chunk.bytes|)
  }

  /** The steps in the order the lock was taken. */
  function CaptureAll(limit: nat, chunks: seq<Chunk>): Captured {
    if chunks == [] then Captured(limit, [], [], false)
    else Step(CaptureAll(limit, chunks[..|chunks| - 1]), chunks[|chunks| - 1])
  }

  // ---- the capture in place ----

  class BoundedCapture {
    var remaining: nat
    var stdout: seq<Byte>
    var stderr: seq<Byte>
    var truncated: bool

    constructor (limit: nat)
      ensures Contents() == CaptureAll(limit, [])
    {
      remaining, stdout, stderr, truncated := limit, [], [], false;
    }

    function Contents(): Captured
      reads this
    {
      Captured(remaining, stdout, stderr, truncated)
    }

    /** The body of `consume` under the lock. */
    method Accept(chunk: Chunk)
      modifies this
      ensures Contents() == Step(old(Contents()), chunk)
    {
      var accepted := chunk.bytes[..Min(remaining, |chunk.bytes|)];
      if chunk.stream.Stdout? { stdout := stdout + accepted; } else { stderr := stderr + accepted; }
      remaining := remaining - |accepted|;
      if |accepted| < |chunk.bytes| { truncated := true; }
    }
  }

  /** Both threads to their end: the lock lets their steps through one at a time, in some order. */
  method Consume(limit: nat, chunks: seq<Chunk>) returns (capture: BoundedCapture)
    ensures capture.Contents() == CaptureAll(limit, chunks)
  {
    capture := new BoundedCapture(limit);
    for i := 0 to |chunks|
      invariant fresh(capture)
      invariant capture.Contents() == CaptureAll(limit, chunks[..i])
    {
      assert chunks[..i + 1][..i] == chunks[..i];
      capture.Accept(chunks[i]);
    }
    assert chunks[..|chunks|] == chunks;
  }

  // ---- the law ----

  function Joined(chunks: seq<seq<Byte>>): seq<Byte> {
    if chunks == [] then [] else Joined(chunks[..|chunks| - 1]) + chunks[|chunks| - 1]
  }

  /** `steps` is some interleaving of what the two threads read. */
  predicate Interleaves(steps: seq<Chunk>, out: seq<seq<Byte>>, err: seq<seq<Byte>>) {
    if steps == [] then out == [] && err == []
    else
      var front, last := steps[..|steps| - 1], steps[|steps| - 1];
      if last.stream.Stdout? then out != [] && out[|out| - 1] == last.bytes && Interleaves(front, out[..|out| - 1], err)
      else err != [] && err[|err| - 1] == last.bytes && Interleaves(front, out, err[..|err| - 1])
  }

  /** What has been captured of two streams that delivered `out` and `err` so far. */
  predicate SharesBudget(limit: nat, c: Captured, out: seq<Byte>, err: seq<Byte>) {
    && c.stdout <= out && c.stderr <= err
    && |c.stdout| + |c.stderr| == Min(limit, |out| + |err|)
    && c.remaining == limit - |c.stdout| - |c.stderr|
    && (c.truncated <==> |out| + |err| > limit)
  }

  lemma StepSharesBudget(limit: nat, c: Captured, chunk: Chunk, out: seq<Byte>, err: seq<Byte>)
    requires SharesBudget(limit, c, out, err)
    ensures SharesBudget(limit, Step(c, chunk), if chunk.stream.Stdout? then out + chunk.bytes else out,
                         if chunk.stream.Stderr? then err + chunk.bytes else err)
  {
    var n := Min(c.remaining, |chunk.bytes|);
    var kept, all := if chunk.stream.Stdout? then c.stdout else c.stderr, if chunk.stream.Stdout? then out else err;
    PrefixGrows(kept, all, chunk.bytes, n, c.remaining);
  }

  /** While something remains of the budget nothing was cut, so the buffer can grow by what comes next. */
  lemma PrefixGrows(kept: seq<Byte>, all: seq<Byte>, more: seq<Byte>, n: nat, remaining: nat)
    requires kept <= all && n == Min(remaining, |more|) && (remaining > 0 ==> kept == all)
    ensures kept + more[..n] <= all + more
  {
  }

  /**
   For every chunking of the two streams and every interleaving of the threads: each buffer is a prefix of its stream,
   together they hold as many bytes as the limit allows, and the output counts as truncated exactly if there were more.
   */
  lemma {:induction false} BudgetIsShared(limit: nat, steps: seq<Chunk>, out: seq<seq<Byte>>, err: seq<seq<Byte>>)
    requires Interleaves(steps, out, err)
    ensures SharesBudget(limit, CaptureAll(limit, steps), Joined(out), Joined(err))
  {
    if steps != [] {
      var front, last := steps[..|steps| - 1], steps[|steps| - 1];
      var out', err' := if last.stream.Stdout? then out[..|out| - 1] else out, if last.stream.Stdout? then err else err[..|err| - 1];
      BudgetIsShared(limit, front, out', err');
      hide Step, SharesBudget;
      StepSharesBudget(limit, CaptureAll(limit, front), last, Joined(out'), Joined(err'));
    }
  }
}
