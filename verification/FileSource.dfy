/**
 Incremental reading of a log file: each poll reads the complete lines past a cursor, and
 notices rotation, truncation and disappearance.
 */
module FileSource {
  import opened Common
  import opened Lines

  // ---- data ----

  datatype Cursor = Cursor(device: int, inode: int, byteOffset: nat, sequence: nat)

  /** The cursor of a source never read. */
  const UNREAD := Cursor(0, 0, 0, 0)

  /** What a poll finds at the path: `stat`, then the bytes at the time of reading. */
  datatype View = Missing | File(device: nat, inode: nat, size: nat, content: seq<Byte>)

  datatype Payload =
    | SourceMissing
    | SourceAvailable
    | SourceRotated(previousInode: int, currentInode: int)
    | SourceTruncated(previousOffset: nat, currentSize: nat)
    | LogLine(line: string, byteStart: nat, byteEnd: nat)

  datatype Batch = Batch(events: seq<Event<Payload>>, cursor: Cursor)

  /** Strict decoding in the source's configured encoding: `None` is an exception. */
  type Decoder = seq<Byte> -> Option<string>

  // ---- what a poll should do ----

  predicate WasMissing(c: Cursor) { c.device == -1 && c.inode == -1 }

  predicate KnownFile(c: Cursor) { !WasMissing(c) && (c.device != 0 || c.inode != 0) }

  /** The notice that opens a new epoch, if the file is not the one the cursor belongs to. */
  function NoticeFor(c: Cursor, view: View): Option<Payload>
    requires view.File?
  {
    if WasMissing(c) then Some(SourceAvailable)
    else if KnownFile(c) && (c.device != view.device || c.inode != view.inode) then Some(SourceRotated(c.inode, view.inode))
    else if view.size < c.byteOffset then Some(SourceTruncated(c.byteOffset, view.size))
    else None
  }

  function StartOffset(c: Cursor, view: View): nat
    requires view.File?
  {
    if NoticeFor(c, view).Some? then 0 else c.byteOffset
  }

  /** `seek` then `read`: nothing past the end. */
  function ReadFrom(content: seq<Byte>, start: nat): seq<Byte> {
    if start <= |content| then content[start..] else []
  }

  function CompleteLines(unread: seq<Byte>): seq<Byte> {
    unread[..AfterLastNewline(unread)]
  }

  /** The log events of consecutive lines that begin at `start`, if all of them decode. */
  function LineBodies(decode: Decoder, lines: seq<seq<Byte>>, start: nat): (bodies: Option<seq<Payload>>)
    ensures bodies.Some? ==> |bodies.value| == |lines|
  {
    if lines == [] then Some([])
    else match decode(Strip(lines[0]))
      case None => None
      case Some(line) =>
        Prepend([LogLine(line, start, start + |lines[0]|)], LineBodies(decode, lines[1..], start + |lines[0]|))
  }

  function Prepend(first: seq<Payload>, rest: Option<seq<Payload>>): Option<seq<Payload>> {
    if rest.Some? then Some(first + rest.value) else None
  }

  lemma PrependOne(first: seq<Payload>, one: Payload, rest: Option<seq<Payload>>)
    ensures Prepend(first, Prepend([one], rest)) == Prepend(first + [one], rest)
  {
    if rest.Some? { assert first + ([one] + rest.value) == (first + [one]) + rest.value; }
  }

  lemma PrependNone(rest: Option<seq<Payload>>)
    ensures Prepend([], rest) == rest
  {
    if rest.Some? { assert [] + rest.value == rest.value; }
  }

  /** One poll: `None` when a line does not decode. */
  function Poll(decode: Decoder, c: Cursor, view: View): Option<Batch> {
    match view
    case Missing =>
      if WasMissing(c) then Some(Batch([], c))
      else Some(Batch(Number(c.sequence, [SourceMissing]), Cursor(-1, -1, 0, c.sequence + 1)))
    case File(device, inode, _, content) =>
      var start := StartOffset(c, view);
      var complete := CompleteLines(ReadFrom(content, start));
      match LineBodies(decode, SplitKeep(complete), start)
      case None => None
      case Some(lines) =>
        var bodies := (if NoticeFor(c, view).Some? then [NoticeFor(c, view).value] else []) + lines;
        Some(Batch(Number(c.sequence, bodies), Cursor(device, inode, start + |complete|, c.sequence + |bodies|)))
  }

  // ---- the reader ----

  class FileSourceReader {
    const decode: Decoder

    constructor (decode: Decoder)
      ensures this.decode == decode
    {
      this.decode := decode;
    }

    /** The loop over the complete lines: one numbered event a line, each with its byte range. */
    method AppendLines(earlier: seq<Event<Payload>>, from: nat, lines: seq<seq<Byte>>, start: nat)
      returns (events: Option<seq<Event<Payload>>>, sequence: nat)
      ensures match LineBodies(decode, lines, start)
              case None => events == None
              case Some(bodies) => events == Some(earlier + Number(from, bodies)) && sequence == from + |bodies|
    {
      sequence := from;
      var result := earlier;
      var bytePosition: nat := start;
      ghost var done: seq<Payload> := [];
      var i := 0;
      assert lines[0..] == lines;
      PrependNone(LineBodies(decode, lines, start));
      while i < |lines|
        invariant 0 <= i <= |lines|
        invariant |done| == i && sequence == from + i && result == earlier + Number(from, done)
        invariant LineBodies(decode, lines, start) == Prepend(done, LineBodies(decode, lines[i..], bytePosition))
      {
        var rawLine := lines[i];
        sequence := sequence + 1;
        var byteStart := bytePosition;
        bytePosition := bytePosition + |rawLine|;
        assert lines[i..][1..] == lines[i + 1..];
        var line := decode(Strip(rawLine));
        if line.None? { return None, sequence; }
        var body := LogLine(line.value, byteStart, bytePosition);
        result := result + [Event(sequence, body)];
        NumberConcat(from, done, [body]);
        PrependOne(done, body, LineBodies(decode, lines[i + 1..], bytePosition));
        done := done + [body];
        i := i + 1;
      }
      assert lines[i..] == [] && done + [] == done;
      events := Some(result);
    }

    method ReadAvailable(view: View, stored: Option<Cursor>) returns (batch: Option<Batch>)
      ensures batch == Poll(decode, if stored.Some? then stored.value else UNREAD, view)
    {
      hide SplitKeep, LineBodies, AfterLastNewline;
      var previous := if stored.Some? then stored.value else UNREAD;
      var wasMissing := previous.device == -1 && previous.inode == -1;
      if view.Missing? {
        if wasMissing { return Some(Batch([], previous)); }
        var notice := [Event(previous.sequence + 1, SourceMissing)];
        assert notice == Number(previous.sequence, [SourceMissing]);
        return Some(Batch(notice, Cursor(-1, -1, 0, previous.sequence + 1)));
      }

      var events: seq<Event<Payload>> := [];
      var sequence := previous.sequence;
      var startOffset := previous.byteOffset;
      var knownFile := !wasMissing && (previous.device != 0 || previous.inode != 0);
      var identityChanged := knownFile && (previous.device != view.device || previous.inode != view.inode);
      if wasMissing {
        sequence := sequence + 1;
        events := events + [Event(sequence, SourceAvailable)];
        startOffset := 0;
      } else if identityChanged {
        sequence := sequence + 1;
        events := events + [Event(sequence, SourceRotated(previous.inode, view.inode))];
        startOffset := 0;
      } else if view.size < previous.byteOffset {
        sequence := sequence + 1;
        events := events + [Event(sequence, SourceTruncated(previous.byteOffset, view.size))];
        startOffset := 0;
      }

      ghost var notices := if NoticeFor(previous, view).Some? then [NoticeFor(previous, view).value] else [];
      assert events == Number(previous.sequence, notices);
      var available := ReadFrom(view.content, startOffset);
      var complete := available[..AfterLastNewline(available)];
      ghost var lines := LineBodies(decode, SplitKeep(complete), startOffset);
      if lines.Some? { NumberConcat(previous.sequence, notices, lines.value); }
      var all, last := AppendLines(events, sequence, SplitKeep(complete), startOffset);
      if all.None? { return None; }
      batch := Some(Batch(all.value, Cursor(view.device, view.inode, startOffset + |complete|, last)));
    }
  }

  /** A poll continues the numbering of its source without a gap. */
  lemma PollIsConsecutive(decode: Decoder, c: Cursor, view: View)
    requires Poll(decode, c, view).Some?
    ensures Consecutive(c.sequence, Poll(decode, c, view).value.events, Poll(decode, c, view).value.cursor.sequence)
  {
  }

  // ---- lines and byte ranges ----

  function Join(a: Option<seq<Payload>>, b: Option<seq<Payload>>): Option<seq<Payload>> {
    if a.Some? then Prepend(a.value, b) else None
  }

  lemma {:induction false} LineBodiesConcat(decode: Decoder, a: seq<seq<Byte>>, b: seq<seq<Byte>>, start: nat)
    ensures LineBodies(decode, a + b, start) ==
            Join(LineBodies(decode, a, start), LineBodies(decode, b, start + |Flatten(a)|))
    decreases |a|
  {
    if a == [] {
      assert a + b == b;
      assert LineBodies(decode, b, start).Some? ==> [] + LineBodies(decode, b, start).value == LineBodies(decode, b, start).value;
    } else {
      assert (a + b)[1..] == a[1..] + b;
      LineBodiesConcat(decode, a[1..], b, start + |a[0]|);
      var tail := LineBodies(decode, a[1..], start + |a[0]|);
      var rest := LineBodies(decode, b, start + |Flatten(a)|);
      if decode(Strip(a[0])).Some? && tail.Some? && rest.Some? {
        var first := [LogLine(decode(Strip(a[0])).value, start, start + |a[0]|)];
        assert first + (tail.value + rest.value) == (first + tail.value) + rest.value;
      }
    }
  }

  /** The byte ranges of consecutive log events tile `[start, end)`, and each event is the line in its range. */
  predicate Tiles(decode: Decoder, content: seq<Byte>, bodies: seq<Payload>, start: nat, end: nat) {
    if bodies == [] then start == end
    else
      && bodies[0].LogLine?
      && bodies[0].byteStart == start
      && start < bodies[0].byteEnd <= |content|
      && decode(Strip(content[start..bodies[0].byteEnd])) == Some(bodies[0].line)
      && Tiles(decode, content, bodies[1..], bodies[0].byteEnd, end)
  }

  lemma RangeSplits(content: seq<Byte>, start: nat, a: seq<Byte>, b: seq<Byte>)
    requires start + |a + b| <= |content| && content[start..start + |a + b|] == a + b
    ensures content[start..start + |a|] == a
    ensures content[start + |a|..start + |a| + |b|] == b
  {
    CutTwice(content, start, |a + b|);
    assert (a + b)[..|a|] == a && (a + b)[|a|..] == b;
    assert content[start..start + |a|] == content[start..start + |a + b|][..|a|];
    assert content[start + |a|..start + |a| + |b|] == content[start..start + |a + b|][|a|..];
  }

  lemma {:induction false} LineBodiesTile(decode: Decoder, content: seq<Byte>, lines: seq<seq<Byte>>, start: nat)
    requires start + |Flatten(lines)| <= |content| && content[start..start + |Flatten(lines)|] == Flatten(lines)
    requires forall i :: 0 <= i < |lines| ==> lines[i] != []
    requires LineBodies(decode, lines, start).Some?
    ensures Tiles(decode, content, LineBodies(decode, lines, start).value, start, start + |Flatten(lines)|)
    decreases |lines|
  {
    hide Strip;
    if lines != [] {
      RangeSplits(content, start, lines[0], Flatten(lines[1..]));
      LineBodiesTile(decode, content, lines[1..], start + |lines[0]|);
      assert LineBodies(decode, lines, start).value[1..] == LineBodies(decode, lines[1..], start + |lines[0]|).value;
    }
  }

  // ---- chains of polls ----

  /** A source over time: its cursor, everything it emitted, and what the file held at its last successful poll. */
  datatype Reading = Reading(cursor: Cursor, events: seq<Event<Payload>>, content: seq<Byte>)

  const START := Reading(UNREAD, [], [])

  /** A poll whose decoding raises commits nothing. */
  function Observe(decode: Decoder, r: Reading, view: View): Reading {
    match Poll(decode, r.cursor, view)
    case None => r
    case Some(batch) => Reading(batch.cursor, r.events + batch.events, if view.File? then view.content else [])
  }

  function ObserveAll(decode: Decoder, r: Reading, views: seq<View>): Reading
    decreases |views|
  {
    if views == [] then r else ObserveAll(decode, Observe(decode, r, views[0]), views[1..])
  }

  /** The bodies after the last notice. */
  function Epoch(events: seq<Event<Payload>>): seq<Payload> {
    if events == [] || !events[|events| - 1].body.LogLine? then []
    else Epoch(events[..|events| - 1]) + [events[|events| - 1].body]
  }

  /** The file the cursor belongs to, by device and inode (of which a source never read knows none), and no shorter than what was consumed. */
  predicate SameFile(c: Cursor, view: View) {
    && view.File? && c.byteOffset <= view.size
    && ((c.device == view.device && c.inode == view.inode) || (c.device == 0 && c.inode == 0))
  }

  /** What was consumed of a file is still there when the same file is seen again. */
  predicate Appends(r: Reading, view: View) {
    SameFile(r.cursor, view) ==>
      r.cursor.byteOffset <= |view.content| && r.cursor.byteOffset <= |r.content|
      && view.content[..r.cursor.byteOffset] == r.content[..r.cursor.byteOffset]
  }

  ghost predicate AppendsOnly(decode: Decoder, r: Reading, views: seq<View>)
    decreases |views|
  {
    views == [] || (Appends(r, views[0]) && AppendsOnly(decode, Observe(decode, r, views[0]), views[1..]))
  }

  /** One-shot reading: the log events of a whole content cut after its last newline. */
  function OneShot(decode: Decoder, content: seq<Byte>): Option<seq<Payload>> {
    LineBodies(decode, SplitKeep(CompleteLines(content)), 0)
  }

  predicate EpochOk(decode: Decoder, r: Reading) {
    && (WasMissing(r.cursor) ==> r.cursor.byteOffset == 0)
    && r.cursor.byteOffset == AfterLastNewline(r.content)
    && OneShot(decode, r.content) == Some(Epoch(r.events))
    && r.cursor.sequence == |r.events|
  }

  lemma {:induction false} EpochAppendsLines(events: seq<Event<Payload>>, more: seq<Event<Payload>>)
    requires forall i :: 0 <= i < |more| ==> more[i].body.LogLine?
    ensures Epoch(events + more) == Epoch(events) + Bodies(more)
    decreases |more|
  {
    if more == [] {
      assert events + more == events;
    } else {
      var init := more[..|more| - 1];
      assert (events + more)[..|events + more| - 1] == events + init;
      EpochAppendsLines(events, init);
      assert Bodies(more) == Bodies(init) + [more[|more| - 1].body];
    }
  }

  lemma {:induction false} LineBodiesAreLines(decode: Decoder, lines: seq<seq<Byte>>, start: nat)
    requires LineBodies(decode, lines, start).Some?
    ensures forall i :: 0 <= i < |lines| ==> LineBodies(decode, lines, start).value[i].LogLine?
    decreases |lines|
  {
    if lines != [] { LineBodiesAreLines(decode, lines[1..], start + |lines[0]|); }
  }

  lemma NewlineAfterOffset(content: seq<Byte>, unread: seq<Byte>, offset: nat)
    requires offset <= |content| && unread == content[offset..] && (offset > 0 ==> content[offset - 1] == LF)
    ensures AfterLastNewline(content) == offset + AfterLastNewline(unread)
  {
    var n := AfterLastNewline(unread);
    forall i | offset + n <= i < |content|
      ensures content[i] != LF
    {
      assert content[i] == unread[i - offset];
    }
    if n > 0 { assert content[offset + n - 1] == unread[n - 1]; }
    AfterLastNewlineIsUnique(content, offset + n);
  }

  lemma CutContinues(content: seq<Byte>, offset: nat)
    requires offset <= |content| && (offset > 0 ==> content[offset - 1] == LF)
    ensures AfterLastNewline(content) == offset + AfterLastNewline(content[offset..])
    ensures CompleteLines(content) == content[..offset] + CompleteLines(content[offset..])
  {
    NewlineAfterOffset(content, content[offset..], offset);
    CutTwice(content, offset, AfterLastNewline(content[offset..]));
  }

  lemma JoinedLines(decode: Decoder, first: seq<Byte>, second: seq<Byte>, start: nat)
    requires first != [] ==> first[|first| - 1] == LF
    ensures LineBodies(decode, SplitKeep(first + second), start) ==
            Join(LineBodies(decode, SplitKeep(first), start), LineBodies(decode, SplitKeep(second), start + |first|))
  {
    hide *;
    SplitAfterNewline(first, second);
    SplitGivesLines(first);
    LineBodiesConcat(decode, SplitKeep(first), SplitKeep(second), start);
  }

  /** What was consumed stays consumed, and what follows it is split on its own. */
  lemma OneShotContinues(decode: Decoder, content: seq<Byte>, offset: nat)
    requires offset <= |content| && (offset > 0 ==> content[offset - 1] == LF)
    ensures OneShot(decode, content) ==
            Join(LineBodies(decode, SplitKeep(content[..offset]), 0),
                 LineBodies(decode, SplitKeep(CompleteLines(content[offset..])), offset))
  {
    hide SplitKeep, LineBodies, AfterLastNewline, CompleteLines, Join;
    CutContinues(content, offset);
    JoinedLines(decode, content[..offset], CompleteLines(content[offset..]), 0);
  }

  lemma EpochAfterPoll(events: seq<Event<Payload>>, from: nat, notices: seq<Payload>, lines: seq<Payload>)
    requires |notices| <= 1 && (notices != [] ==> !notices[0].LogLine?)
    requires forall i :: 0 <= i < |lines| ==> lines[i].LogLine?
    ensures Epoch(events + Number(from, notices + lines)) == (if notices == [] then Epoch(events) else []) + lines
  {
    var opening, logs := Number(from, notices), Number(from + |notices|, lines);
    NumberConcat(from, notices, lines);
    assert events + (opening + logs) == (events + opening) + logs;
    EpochAppendsLines(events + opening, logs);
    assert Bodies(logs) == lines;
    if notices == [] {
      assert events + opening == events;
    } else {
      assert (events + opening)[|events + opening| - 1] == opening[0];
    }
  }

  lemma FreshFileStartsEpoch(decode: Decoder, r: Reading, view: View)
    requires EpochOk(decode, r) && view.File? && NoticeFor(r.cursor, view).Some?
    ensures EpochOk(decode, Observe(decode, r, view))
  {
    hide SplitKeep, LineBodies, AfterLastNewline, Epoch;
    var poll := Poll(decode, r.cursor, view);
    if poll.Some? {
      var lines := SplitKeep(CompleteLines(view.content));
      assert ReadFrom(view.content, 0) == view.content;
      LineBodiesAreLines(decode, lines, 0);
      var bodies := LineBodies(decode, lines, 0).value;
      EpochAfterPoll(r.events, r.cursor.sequence, [NoticeFor(r.cursor, view).value], bodies);
      assert [] + bodies == bodies;
    }
  }

  lemma SameFileContinuesEpoch(decode: Decoder, r: Reading, view: View)
    requires EpochOk(decode, r) && view.File? && NoticeFor(r.cursor, view).None? && Appends(r, view)
    ensures EpochOk(decode, Observe(decode, r, view))
  {
    hide SplitKeep, LineBodies, AfterLastNewline, Epoch;
    var poll := Poll(decode, r.cursor, view);
    if poll.Some? {
      var offset := r.cursor.byteOffset;
      var lines := SplitKeep(CompleteLines(view.content[offset..]));
      LineBodiesAreLines(decode, lines, offset);
      var bodies := LineBodies(decode, lines, offset).value;
      EpochAfterPoll(r.events, r.cursor.sequence, [], bodies);
      assert view.content[..offset] == CompleteLines(r.content);
      assert offset > 0 ==> r.content[..offset][offset - 1] == view.content[..offset][offset - 1];
      CutContinues(view.content, offset);
      OneShotContinues(decode, view.content, offset);
    }
  }

  lemma ObserveKeepsEpoch(decode: Decoder, r: Reading, view: View)
    requires EpochOk(decode, r) && Appends(r, view)
    ensures EpochOk(decode, Observe(decode, r, view))
  {
    if view.Missing? {
      var events := Poll(decode, r.cursor, view).value.events;
      assert CompleteLines([]) == [];
      if events == [] {
        assert r.events + events == r.events;
        assert r.cursor.byteOffset == 0 ==> CompleteLines(r.content) == [];
      }
    } else if NoticeFor(r.cursor, view).Some? {
      FreshFileStartsEpoch(decode, r, view);
    } else {
      SameFileContinuesEpoch(decode, r, view);
    }
  }

  lemma {:induction false} ObserveAllKeepsEpoch(decode: Decoder, r: Reading, views: seq<View>)
    requires EpochOk(decode, r) && AppendsOnly(decode, r, views)
    ensures EpochOk(decode, ObserveAll(decode, r, views))
    decreases |views|
  {
    if views != [] {
      ObserveKeepsEpoch(decode, r, views[0]);
      ObserveAllKeepsEpoch(decode, Observe(decode, r, views[0]), views[1..]);
    }
  }

  lemma StartIsOk(decode: Decoder)
    ensures EpochOk(decode, START)
  {
    assert CompleteLines([]) == [];
  }

  lemma OneShotTiles(decode: Decoder, content: seq<Byte>)
    requires OneShot(decode, content).Some?
    ensures Tiles(decode, content, OneShot(decode, content).value, 0, AfterLastNewline(content))
  {
    hide SplitKeep, LineBodies, AfterLastNewline, Tiles;
    SplitGivesLines(CompleteLines(content));
    LineBodiesTile(decode, content, SplitKeep(CompleteLines(content)), 0);
  }

  /**
   Incremental reading refines one-shot reading. Over any polls that see an append-only file
   between notices, the log events since the last notice are those of reading the whole content
   once, cut after its last newline; their byte ranges tile [0, byte_offset), wherever the polls
   fell and however many of them failed.
   */
  lemma EpochRefinesOneShot(decode: Decoder, views: seq<View>)
    requires AppendsOnly(decode, START, views)
    ensures var r := ObserveAll(decode, START, views);
            && OneShot(decode, r.content) == Some(Epoch(r.events))
            && r.cursor.byteOffset == AfterLastNewline(r.content)
            && Tiles(decode, r.content, Epoch(r.events), 0, r.cursor.byteOffset)
  {
    hide OneShot, AfterLastNewline, Epoch, Tiles, ObserveAll, AppendsOnly;
    StartIsOk(decode);
    ObserveAllKeepsEpoch(decode, START, views);
    OneShotTiles(decode, ObserveAll(decode, START, views).content);
  }

  // ---- which file a poll reads, from the views alone ----

  /** The poll announces a file with these notices and reads it from its start. */
  ghost predicate ReadsAfresh(decode: Decoder, poll: Option<Batch>, from: nat, notices: seq<Payload>, view: View)
    requires view.File?
  {
    match OneShot(decode, view.content)
    case None => poll == None
    case Some(lines) =>
      poll == Some(Batch(Number(from, notices + lines),
                         Cursor(view.device, view.inode, AfterLastNewline(view.content), from + |notices| + |lines|)))
  }

  /** The poll announces nothing and reads on: the lines it emits are those of the bytes after `offset`, up to the last newline. */
  ghost predicate ReadsOn(decode: Decoder, poll: Option<Batch>, from: nat, offset: nat, view: View)
    requires view.File?
  {
    var unread := if offset <= |view.content| then view.content[offset..] else [];
    poll.Some? ==>
      && poll.value.cursor == Cursor(view.device, view.inode, offset + AfterLastNewline(unread), from + |poll.value.events|)
      && (forall i :: 0 <= i < |poll.value.events| ==> poll.value.events[i].sequence == from + 1 + i && poll.value.events[i].body.LogLine?)
      && (if offset <= |view.content| then
            Tiles(decode, view.content, Bodies(poll.value.events), offset, offset + AfterLastNewline(unread))
          else poll.value.events == [])
  }

  lemma FreshPoll(decode: Decoder, c: Cursor, view: View, notice: Payload)
    requires view.File? && NoticeFor(c, view) == Some(notice)
    ensures ReadsAfresh(decode, Poll(decode, c, view), c.sequence, [notice], view)
  {
    hide SplitKeep, LineBodies, AfterLastNewline;
    assert ReadFrom(view.content, 0) == view.content;
  }

  lemma FirstPoll(decode: Decoder, view: View)
    requires view.File?
    ensures ReadsAfresh(decode, Poll(decode, UNREAD, view), 0, [], view)
  {
    hide SplitKeep, LineBodies, AfterLastNewline;
    assert ReadFrom(view.content, 0) == view.content;
  }

  lemma SameFilePoll(decode: Decoder, c: Cursor, view: View)
    requires view.File? && NoticeFor(c, view).None?
    ensures ReadsOn(decode, Poll(decode, c, view), c.sequence, c.byteOffset, view)
  {
    hide SplitKeep, LineBodies, AfterLastNewline, Tiles;
    var poll := Poll(decode, c, view);
    var unread := ReadFrom(view.content, c.byteOffset);
    var complete := CompleteLines(unread);
    var bodies := LineBodies(decode, SplitKeep(complete), c.byteOffset);
    assert bodies.Some? ==> [] + bodies.value == bodies.value;
    assert poll.Some? ==>
        poll == Some(Batch(Number(c.sequence, bodies.value),
                           Cursor(view.device, view.inode, c.byteOffset + AfterLastNewline(unread), c.sequence + |bodies.value|)));
    if poll.Some? { LinesReadOn(decode, view.content, c.byteOffset, bodies.value); }
    hide Poll;
    assert poll.Some? ==> Bodies(poll.value.events) == bodies.value;
  }

  lemma LinesReadOn(decode: Decoder, content: seq<Byte>, start: nat, bodies: seq<Payload>)
    requires LineBodies(decode, SplitKeep(CompleteLines(ReadFrom(content, start))), start) == Some(bodies)
    ensures forall i :: 0 <= i < |bodies| ==> bodies[i].LogLine?
    ensures if start <= |content| then Tiles(decode, content, bodies, start, start + AfterLastNewline(ReadFrom(content, start)))
            else bodies == []
  {
    hide SplitKeep, LineBodies, AfterLastNewline, Tiles, CompleteLines, ReadFrom;
    var complete := CompleteLines(ReadFrom(content, start));
    LineBodiesAreLines(decode, SplitKeep(complete), start);
    SplitGivesLines(complete);
    CompleteIsThere(content, start);
    if start <= |content| {
      LineBodiesTile(decode, content, SplitKeep(complete), start);
    } else {
      NothingRead(decode, start);
    }
  }

  lemma CompleteIsThere(content: seq<Byte>, start: nat)
    ensures var complete := CompleteLines(ReadFrom(content, start));
            && |complete| == AfterLastNewline(ReadFrom(content, start))
            && if start <= |content| then start + |complete| <= |content| && content[start..start + |complete|] == complete else complete == []
  {
    hide AfterLastNewline;
    if start <= |content| { CutTwice(content, start, |CompleteLines(ReadFrom(content, start))|); }
  }

  lemma NothingRead(decode: Decoder, start: nat)
    ensures CompleteLines([]) == [] && LineBodies(decode, SplitKeep([]), start) == Some([])
  {
  }

  /** A poll raises exactly if one of the complete lines it reads does not decode. */
  lemma PollRaisesIff(decode: Decoder, c: Cursor, view: View)
    ensures Poll(decode, c, view).None? <==>
              view.File? &&
              var lines := SplitKeep(CompleteLines(ReadFrom(view.content, StartOffset(c, view))));
              exists i :: 0 <= i < |lines| && decode(Strip(lines[i])).None?
  {
    hide SplitKeep, CompleteLines, ReadFrom, Strip, StartOffset, NoticeFor, LineBodies;
    if view.File? {
      var start := StartOffset(c, view);
      var lines := SplitKeep(CompleteLines(ReadFrom(view.content, start)));
      assert Poll(decode, c, view).None? <==> LineBodies(decode, lines, start).None?;
      BodiesRaiseIff(decode, lines, start);
      hide Poll;
    }
  }

  lemma {:induction false} BodiesRaiseIff(decode: Decoder, lines: seq<seq<Byte>>, start: nat)
    ensures LineBodies(decode, lines, start).None? <==> exists i :: 0 <= i < |lines| && decode(Strip(lines[i])).None?
    decreases |lines|
  {
    hide Strip;
    if lines != [] {
      BodiesRaiseIff(decode, lines[1..], start + |lines[0]|);
      assert forall i :: 0 < i < |lines| ==> lines[i] == lines[1..][i - 1];
      if decode(Strip(lines[0])).Some? && LineBodies(decode, lines[1..], start + |lines[0]|).None? {
        var i :| 0 <= i < |lines[1..]| && decode(Strip(lines[1..][i])).None?;
        assert decode(Strip(lines[i + 1])).None?;
      }
    }
  }

  /**
   What a poll makes of the file it finds, told by the views alone. Once a file has been read, another
   device or another inode is a rotation, a size below what was consumed a truncation, an empty path a
   disappearance, and whatever is found after that an arrival: each is announced by one event with these
   values, and the new content is read from its start. Otherwise nothing is announced and reading goes on.
   (No file has device 0 and inode 0, by which a source never read is known.)
   */
  lemma NoticesTellTheViews(decode: Decoder, c: Cursor, view: View, next: View)
    requires view.File? && (view.device != 0 || view.inode != 0) && Poll(decode, c, view).Some?
    ensures var c1 := Poll(decode, c, view).value.cursor;
            var poll := Poll(decode, c1, next);
            if next.Missing? then poll == Some(Batch([Event(c1.sequence + 1, SourceMissing)], Cursor(-1, -1, 0, c1.sequence + 1)))
            else if next.device != view.device || next.inode != view.inode then
              ReadsAfresh(decode, poll, c1.sequence, [SourceRotated(view.inode, next.inode)], next)
            else if next.size < c1.byteOffset then
              ReadsAfresh(decode, poll, c1.sequence, [SourceTruncated(c1.byteOffset, next.size)], next)
            else ReadsOn(decode, poll, c1.sequence, c1.byteOffset, next)
  {
    var c1 := Poll(decode, c, view).value.cursor;
    assert c1.device == view.device && c1.inode == view.inode;
    assert Number(c1.sequence, [SourceMissing]) == [Event(c1.sequence + 1, SourceMissing)];
    if next.File? {
      if next.device != view.device || next.inode != view.inode {
        FreshPoll(decode, c1, next, SourceRotated(view.inode, next.inode));
      } else if next.size < c1.byteOffset {
        FreshPoll(decode, c1, next, SourceTruncated(c1.byteOffset, next.size));
      } else {
        SameFilePoll(decode, c1, next);
      }
    }
    hide Poll;
  }

  /** A missing path is announced once; the file that appears then is announced and read from its start, and so is a first file, unannounced. */
  lemma MissingIsToldOnce(decode: Decoder, c: Cursor, next: View)
    ensures var c1 := Poll(decode, c, Missing).value.cursor;
            var poll := Poll(decode, c1, next);
            if next.Missing? then poll == Some(Batch([], c1))
            else ReadsAfresh(decode, poll, c1.sequence, [SourceAvailable], next)
    ensures Poll(decode, c, Missing).value.events == (if c.device == -1 && c.inode == -1 then [] else [Event(c.sequence + 1, SourceMissing)])
    ensures if next.Missing? then Poll(decode, UNREAD, next) == Some(Batch([Event(1, SourceMissing)], Cursor(-1, -1, 0, 1)))
            else ReadsAfresh(decode, Poll(decode, UNREAD, next), 0, [], next)
  {
    var c1 := Poll(decode, c, Missing).value.cursor;
    assert Number(0, [SourceMissing]) == [Event(1, SourceMissing)];
    assert Number(c.sequence, [SourceMissing]) == [Event(c.sequence + 1, SourceMissing)];
    if next.File? {
      FreshPoll(decode, c1, next, SourceAvailable);
      FirstPoll(decode, next);
    }
  }

  // ---- a file that only grows ----

  /** One file, seen growing: each poll reads at least what the one before read, and `stat` saw at least that. */
  ghost predicate Growing(views: seq<View>, device: nat, inode: nat, seen: seq<Byte>)
    decreases |views|
  {
    views == [] ||
    (views[0].File? && views[0].device == device && views[0].inode == inode
     && seen <= views[0].content && |seen| <= views[0].size
     && Growing(views[1..], device, inode, views[0].content))
  }

  function LastSeen(views: seq<View>, seen: seq<Byte>): seq<Byte>
    decreases |views|
  {
    if views == [] then seen else LastSeen(views[1..], if views[0].File? then views[0].content else seen)
  }

  /** A reader of one growing file: it has seen no notice and lags behind what is there. */
  predicate Lags(r: Reading, device: nat, inode: nat, seen: seq<Byte>) {
    && (KnownFile(r.cursor) ==> r.cursor.device == device && r.cursor.inode == inode)
    && !WasMissing(r.cursor)
    && r.content <= seen
    && r.cursor.byteOffset <= |r.content|
    && r.cursor.sequence == |r.events|
    && (forall i :: 0 <= i < |r.events| ==> r.events[i].sequence == i + 1 && r.events[i].body.LogLine?)
  }

  lemma ObserveGrowing(decode: Decoder, r: Reading, view: View, seen: seq<Byte>)
    requires view.File? && seen <= view.content && |seen| <= view.size
    requires Lags(r, view.device, view.inode, seen)
    ensures Appends(r, view) && NoticeFor(r.cursor, view).None?
    ensures Lags(Observe(decode, r, view), view.device, view.inode, view.content)
    ensures Poll(decode, r.cursor, view).Some? ==> Observe(decode, r, view).content == view.content
  {
    hide SplitKeep, LineBodies, AfterLastNewline;
    assert view.content[..r.cursor.byteOffset] == r.content[..r.cursor.byteOffset];
    if Poll(decode, r.cursor, view).Some? {
      var lines := SplitKeep(CompleteLines(ReadFrom(view.content, r.cursor.byteOffset)));
      LineBodiesAreLines(decode, lines, r.cursor.byteOffset);
    }
  }

  lemma {:induction false} ObserveAllGrowing(decode: Decoder, r: Reading, views: seq<View>, device: nat, inode: nat, seen: seq<Byte>)
    requires Growing(views, device, inode, seen) && Lags(r, device, inode, seen)
    ensures AppendsOnly(decode, r, views)
    ensures Lags(ObserveAll(decode, r, views), device, inode, LastSeen(views, seen))
    decreases |views|
  {
    hide Observe, Poll, Appends, Lags;
    if views != [] {
      ObserveGrowing(decode, r, views[0], seen);
      ObserveAllGrowing(decode, Observe(decode, r, views[0]), views[1..], device, inode, views[0].content);
    }
  }

  lemma {:induction false} ObserveAllSnoc(decode: Decoder, r: Reading, views: seq<View>, view: View)
    ensures ObserveAll(decode, r, views + [view]) == Observe(decode, ObserveAll(decode, r, views), view)
    decreases |views|
  {
    if views == [] {
      assert views + [view] == [view] && [view][1..] == [];
    } else {
      assert (views + [view])[1..] == views[1..] + [view];
      ObserveAllSnoc(decode, Observe(decode, r, views[0]), views[1..], view);
    }
  }

  lemma AllLinesAreOneEpoch(events: seq<Event<Payload>>)
    requires forall i :: 0 <= i < |events| ==> events[i].body.LogLine?
    ensures Epoch(events) == Bodies(events)
  {
    EpochAppendsLines([], events);
    assert [] + events == events && Epoch([]) + Bodies(events) == Bodies(events);
  }

  lemma NumberedFromOne(events: seq<Event<Payload>>)
    requires forall i :: 0 <= i < |events| ==> events[i].sequence == i + 1
    ensures events == Number(0, Bodies(events))
  {
  }

  /** A poll that must succeed because everything up to its content decodes. */
  lemma DecodablePollSucceeds(decode: Decoder, r: Reading, view: View)
    requires EpochOk(decode, r) && view.File? && NoticeFor(r.cursor, view).None? && Appends(r, view)
    requires OneShot(decode, view.content).Some?
    ensures Poll(decode, r.cursor, view).Some?
  {
    hide SplitKeep, LineBodies, AfterLastNewline, Epoch;
    var offset := r.cursor.byteOffset;
    assert offset > 0 ==> r.content[..offset][offset - 1] == view.content[..offset][offset - 1];
    OneShotContinues(decode, view.content, offset);
  }

  /**
   Polling is invisible: reading one growing file by any polls emits exactly the events, numbers
   and cursor of a single poll of its final content, when that content decodes.
   */
  lemma ManyPollsEqualOne(decode: Decoder, views: seq<View>, last: View, device: nat, inode: nat)
    requires Growing(views + [last], device, inode, []) && last.File? && OneShot(decode, last.content).Some?
    ensures ObserveAll(decode, START, views + [last]) == Observe(decode, START, last)
  {
    GrowingPrefix(views, last, device, inode, []);
    StartIsOk(decode);
    ObserveAllGrowing(decode, START, views, device, inode, []);
    ObserveAllKeepsEpoch(decode, START, views);
    ObserveAllSnoc(decode, START, views, last);
    var r := ObserveAll(decode, START, views);
    LastPollDecides(decode, r, last, LastSeen(views, []));
    LastPollDecides(decode, START, last, []);
  }

  /** After a successful last poll of a growing file, the reader's state is a function of what it read. */
  lemma LastPollDecides(decode: Decoder, r: Reading, last: View, seen: seq<Byte>)
    requires last.File? && OneShot(decode, last.content).Some? && seen <= last.content && |seen| <= last.size
    requires EpochOk(decode, r) && Lags(r, last.device, last.inode, seen)
    ensures var bodies := OneShot(decode, last.content).value;
            Observe(decode, r, last) ==
              Reading(Cursor(last.device, last.inode, AfterLastNewline(last.content), |bodies|), Number(0, bodies), last.content)
  {
    ObserveGrowing(decode, r, last, seen);
    DecodablePollSucceeds(decode, r, last);
    ObserveKeepsEpoch(decode, r, last);
    var r1 := Observe(decode, r, last);
    AllLinesAreOneEpoch(r1.events);
    NumberedFromOne(r1.events);
  }

  lemma {:induction false} GrowingPrefix(views: seq<View>, last: View, device: nat, inode: nat, seen: seq<Byte>)
    requires Growing(views + [last], device, inode, seen)
    ensures Growing(views, device, inode, seen)
    ensures last.File? && last.device == device && last.inode == inode
    ensures LastSeen(views, seen) <= last.content && |LastSeen(views, seen)| <= last.size
    decreases |views|
  {
    if views != [] {
      assert (views + [last])[1..] == views[1..] + [last];
      GrowingPrefix(views[1..], last, device, inode, views[0].content);
    }
  }

  // ---- lines that do not decode ----

  /** A line that does not decode stops the source: no later poll of the growing file gets past it either. */
  lemma UndecodableLineStopsSource(decode: Decoder, c: Cursor, view: View, later: View)
    requires view.File? && later.File? && Poll(decode, c, view).None?
    requires later.device == view.device && later.inode == view.inode && view.content <= later.content
    requires later.size < c.byteOffset <==> view.size < c.byteOffset
    ensures Poll(decode, c, later).None?
  {
    hide SplitKeep, LineBodies, AfterLastNewline;
    var start := StartOffset(c, view);
    if start <= |view.content| {
      var unread, more := view.content[start..], later.content[start..];
      assert unread <= more;
      var n := AfterLastNewline(unread);
      assert n > 0 ==> more[n - 1] == unread[n - 1];
      CutContinues(more, n);
      assert more[..n] == unread[..n];
      JoinedLines(decode, CompleteLines(unread), CompleteLines(more[n..]), start);
    } else {
      NothingToRead(decode, start);
    }
  }

  lemma NothingToRead(decode: Decoder, start: nat)
    ensures LineBodies(decode, SplitKeep(CompleteLines([])), start).Some?
  {
    assert CompleteLines([]) == [];
  }

  // ---- numbering ----

  lemma {:induction false} ChainIsConsecutive(decode: Decoder, r: Reading, views: seq<View>)
    requires Consecutive(0, r.events, r.cursor.sequence)
    ensures Consecutive(0, ObserveAll(decode, r, views).events, ObserveAll(decode, r, views).cursor.sequence)
    decreases |views|
  {
    if views != [] {
      var poll := Poll(decode, r.cursor, views[0]);
      if poll.Some? { PollIsConsecutive(decode, r.cursor, views[0]); }
      ChainIsConsecutive(decode, Observe(decode, r, views[0]), views[1..]);
    }
  }
}
