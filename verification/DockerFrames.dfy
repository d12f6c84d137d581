/** The multiplexed log stream of the Docker Engine API: eight-byte headers, each followed by its payload. */
module DockerFrames {
  import opened Common
  import opened Lines

  datatype Stream = Stdout | Stderr

  datatype Frame = Frame(stream: Stream, payload: seq<Byte>)

  const LIMIT := 0x1_0000_0000

  // ---- the format ----

  function StreamId(s: Stream): Byte { if s == Stdout then 1 else 2 }

  /** A 32-bit size, most significant byte first. */
  function BigEndian(n: nat): seq<Byte>
    requires n < LIMIT
  {
    [n / 0x100_0000, n / 0x1_0000 % 0x100, n / 0x100 % 0x100, n % 0x100]
  }

  function Size(b: seq<Byte>): nat
    requires |b| == 4
  {
    var b0: int, b1: int, b2: int, b3: int := b[0], b[1], b[2], b[3];
    b0 * 0x100_0000 + b1 * 0x1_0000 + b2 * 0x100 + b3
  }

  lemma SizeOfBigEndian(n: nat)
    requires n < LIMIT
    ensures Size(BigEndian(n)) == n
  {
  }

  lemma BigEndianOfSize(b: seq<Byte>)
    requires |b| == 4
    ensures Size(b) < LIMIT && BigEndian(Size(b)) == b
  {
    var b0: int, b1: int, b2: int := b[0], b[1], b[2];
    assert Size(b) / 0x100 == b0 * 0x1_0000 + b1 * 0x100 + b2;
    assert Size(b) / 0x1_0000 == b0 * 0x100 + b1;
  }

  ghost predicate Fits(frames: seq<Frame>) {
    forall i :: 0 <= i < |frames| ==> |frames[i].payload| < LIMIT
  }

  ghost function Encode(frames: seq<Frame>): seq<Byte>
    requires Fits(frames)
  {
    if frames == [] then []
    else
      [StreamId(frames[0].stream), 0, 0, 0] + BigEndian(|frames[0].payload|) + frames[0].payload + Encode(frames[1..])
  }

  /** `body` is a concatenation of well-formed frames. */
  ghost predicate WellFormed(body: seq<Byte>) {
    exists frames :: Fits(frames) && Encode(frames) == body
  }

  // ---- the lines of a stream ----

  datatype TaggedLine = TaggedLine(stream: Stream, line: seq<Byte>)

  /** `splitlines()` of a payload, each line tagged with its stream. */
  function LinesOf(stream: Stream, payload: seq<Byte>): (r: seq<TaggedLine>)
    ensures |r| == |SplitKeep(payload)|
    ensures forall i :: 0 <= i < |r| ==> r[i] == TaggedLine(stream, Strip(SplitKeep(payload)[i]))
  {
    var lines := SplitKeep(payload);
    seq(|lines|, i requires 0 <= i < |lines| => TaggedLine(stream, Strip(lines[i])))
  }

  function AllLines(frames: seq<Frame>): seq<TaggedLine> {
    if frames == [] then [] else AllLines(frames[..|frames| - 1]) + LinesOf(frames[|frames| - 1].stream, frames[|frames| - 1].payload)
  }

  /** Each line of a payload, in order, is one of its lines without the terminator, under the payload's stream. */
  lemma LinesOfHaveNoTerminator(stream: Stream, payload: seq<Byte>, i: nat)
    requires i < |LinesOf(stream, payload)|
    ensures var line, raw := LinesOf(stream, payload)[i], SplitKeep(payload)[i];
            && line.stream == stream && Plain(line.line)
            && (raw == line.line || raw == line.line + [LF] || raw == line.line + [CR] || raw == line.line + [CR, LF])
  {
    var raw := SplitKeep(payload)[i];
    SplitGivesLines(payload);
    hide SplitKeep, Strip, Flatten;
    if Plain(raw) {
      StripLeavesText(raw);
    } else {
      var text :| Plain(text) && (raw == text + [LF] || raw == text + [CR] || raw == text + [CR, LF]);
      StripLeavesText(text);
    }
  }

  /** The lines of frames are those of their payloads, frame by frame. */
  lemma {:induction false} AllLinesConcat(a: seq<Frame>, b: seq<Frame>)
    ensures AllLines(a + b) == AllLines(a) + AllLines(b)
  {
    hide LinesOf;
    if b == [] {
      assert a + b == a;
      assert AllLines(a) + [] == AllLines(a);
    } else {
      var front, last := b[..|b| - 1], b[|b| - 1];
      AllLinesConcat(a, front);
      assert (a + b)[..|a + b| - 1] == a + front && (a + b)[|a + b| - 1] == last;
      Regroup(AllLines(a), AllLines(front), LinesOf(last.stream, last.payload));
    }
  }

  lemma Regroup(a: seq<TaggedLine>, b: seq<TaggedLine>, c: seq<TaggedLine>)
    ensures (a + b) + c == a + (b + c)
  {
  }

  lemma OneFrameLines(f: Frame)
    ensures AllLines([f]) == LinesOf(f.stream, f.payload)
  {
    hide LinesOf;
    assert [f][..0] == [] && AllLines([]) == [];
    assert [] + LinesOf(f.stream, f.payload) == LinesOf(f.stream, f.payload);
  }

  /** The header of a frame: 1 for stdout or 2 for stderr, three zero bytes, and the size of the payload, high byte first. */
  lemma HeaderBytes(stream: Stream, payload: seq<Byte>)
    requires |payload| < LIMIT
    ensures var frame := Encode([Frame(stream, payload)]);
            && |frame| == 8 + |payload| && frame[8..] == payload
            && frame[0] == (match stream case Stdout => 1 case Stderr => 2)
            && frame[1] == 0 && frame[2] == 0 && frame[3] == 0
            && |payload| == ((frame[4] as int * 256 + frame[5] as int) * 256 + frame[6] as int) * 256 + frame[7] as int
  {
    var frames := [Frame(stream, payload)];
    assert frames[1..] == [] && Encode([]) == [];
    var n := |payload|;
    assert n / 0x1_0000 == (n / 0x100_0000) * 256 + n / 0x1_0000 % 0x100;
    assert n / 0x100 == (n / 0x1_0000) * 256 + n / 0x100 % 0x100;
  }

  // ---- the parser ----

  /** The test for a multiplexed body; anything else is a terminal's raw output. */
  predicate Multiplexed(body: seq<Byte>) {
    |body| >= 8 && body[0] in {1, 2} && body[1..4] == [0, 0, 0]
  }

  /** Exactly a body that starts with the header of a frame counts as multiplexed. */
  lemma MultiplexedStartsWithHeader(body: seq<Byte>)
    ensures Multiplexed(body) <==> |body| >= 8 && (body[0] == 1 || body[0] == 2) && body[1] == 0 && body[2] == 0 && body[3] == 0
  {
    if |body| >= 8 { assert body[1..4] == [body[1], body[2], body[3]]; }
  }

  /**
   `_parse_log_streams`. On a multiplexed body it succeeds exactly when the body is a
   concatenation of well-formed frames, and then gives their lines; `None` is an exception.
   */
  method ParseLogStreams(body: seq<Byte>) returns (result: Option<seq<TaggedLine>>)
    ensures !Multiplexed(body) ==> result == Some(LinesOf(Stdout, body))
    ensures Multiplexed(body) ==> (result.Some? <==> WellFormed(body))
    ensures forall frames :: Multiplexed(body) && Fits(frames) && Encode(frames) == body ==> result == Some(AllLines(frames))
  {
    if !Multiplexed(body) { return Some(LinesOf(Stdout, body)); }
    var lines: seq<TaggedLine> := [];
    var position: nat := 0;
    ghost var done: seq<Frame> := [];
    assert body[0..] == body;
    while position + 8 <= |body|
      invariant position <= |body|
      invariant Fits(done) && Encode(done) == body[..position] && lines == AllLines(done)
      decreases |body| - position
    {
      var streamId := body[position];
      if streamId !in {1, 2} || body[position + 1..position + 4] != [0, 0, 0] {
        NotFrames(body, done, position);
        return None;
      }
      var size := Size(body[position + 4..position + 8]);
      var start := position + 8;
      var end := start + size;
      if end > |body| {
        NotFrames(body, done, position);
        return None;
      }
      var stream := if streamId == 1 then Stdout else Stderr;
      lines := lines + LinesOf(stream, body[start..end]);
      ghost var frame := Frame(stream, body[start..end]);
      ExtendFrames(body, done, position, frame);
      assert (done + [frame])[..|done|] == done;
      done := done + [frame];
      position := end;
    }
    if position != |body| {
      NotFrames(body, done, position);
      return None;
    }
    assert body[..position] == body;
    forall frames | Fits(frames) && Encode(frames) == body
      ensures frames == done
    {
      EncodeIsInjective(frames, done);
    }
    result := Some(lines);
  }

  // ---- why it is right ----

  lemma {:induction false} EncodeConcat(a: seq<Frame>, b: seq<Frame>)
    requires Fits(a) && Fits(b)
    ensures Fits(a + b) && Encode(a + b) == Encode(a) + Encode(b)
    decreases |a|
  {
    if a == [] {
      assert a + b == b;
    } else {
      assert (a + b)[1..] == a[1..] + b && (a + b)[0] == a[0];
      EncodeConcat(a[1..], b);
      var header := [StreamId(a[0].stream), 0, 0, 0] + BigEndian(|a[0].payload|) + a[0].payload;
      assert header + (Encode(a[1..]) + Encode(b)) == (header + Encode(a[1..])) + Encode(b);
    }
  }

  /** The first frame of a nonempty encoding can be read off its header. */
  lemma FirstFrame(frames: seq<Frame>, body: seq<Byte>)
    requires Fits(frames) && frames != [] && Encode(frames) == body
    ensures |body| >= 8 && body[0] == StreamId(frames[0].stream) && body[1..4] == [0, 0, 0]
    ensures Size(body[4..8]) == |frames[0].payload| && 8 + |frames[0].payload| <= |body|
    ensures body[8..8 + |frames[0].payload|] == frames[0].payload
    ensures body[8 + |frames[0].payload|..] == Encode(frames[1..])
  {
    var f := frames[0];
    assert body[4..8] == BigEndian(|f.payload|);
    SizeOfBigEndian(|f.payload|);
  }

  /** A multiplexed body decomposes in one way only. */
  lemma {:induction false} EncodeIsInjective(a: seq<Frame>, b: seq<Frame>)
    requires Fits(a) && Fits(b) && Encode(a) == Encode(b)
    ensures a == b
    decreases |a|
  {
    if a != [] { FirstFrame(a, Encode(a)); }
    if b != [] { FirstFrame(b, Encode(b)); }
    if a != [] && b != [] {
      EncodeIsInjective(a[1..], b[1..]);
      assert a == [a[0]] + a[1..] && b == [b[0]] + b[1..];
    }
  }

  /** If the whole is frames and a prefix is frames, the rest is frames. */
  lemma {:induction false} RestIsFrames(frames: seq<Frame>, done: seq<Frame>, body: seq<Byte>, position: nat)
    requires Fits(frames) && Fits(done) && Encode(frames) == body
    requires position <= |body| && Encode(done) == body[..position]
    ensures exists rest :: Fits(rest) && Encode(rest) == body[position..]
    decreases |done|
  {
    if done == [] {
      assert body[position..] == body;
    } else {
      FirstFrame(done, Encode(done));
      assert frames != [] ;
      FirstFrame(frames, body);
      var n := 8 + |done[0].payload|;
      assert body[4..8] == body[..position][4..8];
      assert body[n..][..position - n] == body[..position][n..];
      RestIsFrames(frames[1..], done[1..], body[n..], position - n);
      assert body[n..][position - n..] == body[position..];
    }
  }

  /** What follows a prefix of frames is neither empty nor begins with a frame: the body is not frames. */
  lemma NotFrames(body: seq<Byte>, done: seq<Frame>, position: nat)
    requires position < |body| && Fits(done) && Encode(done) == body[..position]
    requires |body| - position < 8 || body[position] !in {1, 2} || body[position + 1..position + 4] != [0, 0, 0]
             || position + 8 + Size(body[position + 4..position + 8]) > |body|
    ensures !WellFormed(body)
  {
    if |body| - position >= 8 {
      assert body[position..][1..4] == body[position + 1..position + 4];
      assert body[position..][4..8] == body[position + 4..position + 8];
    }
    if WellFormed(body) {
      var frames :| Fits(frames) && Encode(frames) == body;
      RestIsFrames(frames, done, body, position);
      var rest :| Fits(rest) && Encode(rest) == body[position..];
      FirstFrame(rest, body[position..]);
    }
  }

  lemma ExtendFrames(body: seq<Byte>, done: seq<Frame>, position: nat, frame: Frame)
    requires Fits(done) && position + 8 <= |body| && Encode(done) == body[..position]
    requires body[position] == StreamId(frame.stream) && body[position + 1..position + 4] == [0, 0, 0]
    requires Size(body[position + 4..position + 8]) == |frame.payload| && position + 8 + |frame.payload| <= |body|
    requires frame.payload == body[position + 8..position + 8 + |frame.payload|]
    ensures Fits(done + [frame]) && Encode(done + [frame]) == body[..position + 8 + |frame.payload|]
  {
    var size := body[position + 4..position + 8];
    BigEndianOfSize(size);
    EncodeConcat(done, [frame]);
    assert Encode([frame]) == [body[position], 0, 0, 0] + size + frame.payload;
    assert body[position + 1..position + 4] + size == body[position + 1..position + 8];
  }

  /**
   A nonempty list of frames encodes to a multiplexed body, so `ParseLogStreams` gives back the
   lines of its payloads.
   */
  lemma EncodingIsMultiplexed(frames: seq<Frame>)
    requires Fits(frames) && frames != []
    ensures Multiplexed(Encode(frames)) && WellFormed(Encode(frames))
  {
    FirstFrame(frames, Encode(frames));
  }
}
