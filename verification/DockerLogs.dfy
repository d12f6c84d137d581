/**
 Polling a container's log from a cursor: the last timestamp seen, and digests of the lines
 already emitted at it. Timestamps stand for their strings, in string order; a digest is a
 SHA-256 taken to be injective, ordered as its hexadecimal text.
 */
module DockerLogs {
  import opened Common
  import opened DockerFrames

  // ---- data ----

  datatype Entry = Entry(timestamp: int, stream: Stream, line: string)

  type Digest = Entry -> nat

  ghost predicate Injective(digest: Digest) {
    forall a: Entry, b: Entry :: digest(a) == digest(b) ==> a == b
  }

  datatype LogCursor = LogCursor(lastTimestamp: Option<int>, recent: set<nat>)

  const NO_CURSOR := LogCursor(None, {})

  /** How many digests a stored cursor keeps. */
  const KEPT := 100

  function Above(s: set<nat>, x: nat): set<nat> { set y | y in s && y > x }

  /** `sorted(digests)[-100:]`. */
  function KeepLargest(s: set<nat>): set<nat> { set x | x in s && |Above(s, x)| < KEPT }

  function Stored(c: LogCursor): LogCursor { c.(recent := KeepLargest(c.recent)) }

  // ---- one poll ----

  /** An entry before the cursor, or one already emitted at its timestamp. */
  predicate Skipped(digest: Digest, c: LogCursor, e: Entry) {
    c.lastTimestamp.Some? &&
    (e.timestamp < c.lastTimestamp.value || (e.timestamp == c.lastTimestamp.value && digest(e) in c.recent))
  }

  function Past(digest: Digest, c: LogCursor, e: Entry): LogCursor {
    if c.lastTimestamp.None? || e.timestamp > c.lastTimestamp.value then LogCursor(Some(e.timestamp), {digest(e)})
    else c.(recent := c.recent + {digest(e)})
  }

  datatype Batch = Batch(lines: seq<Entry>, cursor: LogCursor)

  /** Reading at most `limit` new entries; `None` when a raw line without a valid timestamp is reached. */
  function Scan(digest: Digest, c: LogCursor, response: seq<Option<Entry>>, limit: nat): Option<Batch>
    decreases |response|
  {
    if response == [] || limit == 0 then Some(Batch([], c))
    else match response[0]
      case None => None
      case Some(e) =>
        if Skipped(digest, c, e) then Scan(digest, c, response[1..], limit)
        else match Scan(digest, Past(digest, c, e), response[1..], limit - 1)
          case None => None
          case Some(batch) => Some(Batch([e] + batch.lines, batch.cursor))
  }

  /** `DockerEngineProvider.logs`, given the parsed raw lines of the response. */
  method Logs(digest: Digest, cursor: LogCursor, response: seq<Option<Entry>>, limit: int) returns (batch: Option<Batch>)
    ensures limit <= 0 ==> batch == None
    ensures limit > 0 ==>
              batch == match Scan(digest, cursor, response, limit)
                       case None => None
                       case Some(b) => Some(Batch(b.lines, Stored(b.cursor)))
  {
    if limit <= 0 { return None; }
    var lastTimestamp := cursor.lastTimestamp;
    var recent := cursor.recent;
    var lines: seq<Entry> := [];
    var i := 0;
    assert response[0..] == response;
    AfterNothing(Scan(digest, cursor, response, limit));
    while i < |response| && |lines| < limit
      invariant 0 <= i <= |response| && |lines| <= limit
      invariant Scan(digest, cursor, response, limit) ==
                After(lines, Scan(digest, LogCursor(lastTimestamp, recent), response[i..], limit - |lines|))
    {
      assert response[i..][1..] == response[i + 1..];
      if response[i].None? { return None; }
      var e := response[i].value;
      i := i + 1;
      if lastTimestamp.Some? && e.timestamp < lastTimestamp.value { continue; }
      if lastTimestamp == Some(e.timestamp) && digest(e) in recent { continue; }
      AfterOne(lines, e, Scan(digest, Past(digest, LogCursor(lastTimestamp, recent), e), response[i..], limit - |lines| - 1));
      if lastTimestamp.None? || e.timestamp > lastTimestamp.value {
        lastTimestamp := Some(e.timestamp);
        recent := {digest(e)};
      } else {
        recent := recent + {digest(e)};
      }
      lines := lines + [e];
    }
    assert lines + [] == lines;
    batch := Some(Batch(lines, LogCursor(lastTimestamp, KeepLargest(recent))));
  }

  function After(lines: seq<Entry>, rest: Option<Batch>): Option<Batch> {
    if rest.Some? then Some(Batch(lines + rest.value.lines, rest.value.cursor)) else None
  }

  lemma AfterNothing(rest: Option<Batch>)
    ensures After([], rest) == rest
  {
    if rest.Some? { assert [] + rest.value.lines == rest.value.lines; }
  }

  lemma AfterOne(lines: seq<Entry>, e: Entry, rest: Option<Batch>)
    ensures After(lines, After([e], rest)) == After(lines + [e], rest)
  {
    if rest.Some? { assert lines + ([e] + rest.value.lines) == (lines + [e]) + rest.value.lines; }
  }

  // ---- the log without repetitions ----

  ghost predicate Sorted(log: seq<Entry>) {
    forall i, j :: 0 <= i <= j < |log| ==> log[i].timestamp <= log[j].timestamp
  }

  /** Each entry where it first occurs. */
  function Dedup(log: seq<Entry>): seq<Entry> {
    if log == [] then []
    else
      var init := log[..|log| - 1];
      if log[|log| - 1] in init then Dedup(init) else Dedup(init) + [log[|log| - 1]]
  }

  lemma {:induction false} DedupHasSameEntries(log: seq<Entry>)
    ensures forall e :: e in Dedup(log) <==> e in log
    ensures |Dedup(log)| <= |log|
  {
    if log != [] {
      DedupHasSameEntries(log[..|log| - 1]);
      assert log == log[..|log| - 1] + [log[|log| - 1]];
    }
  }

  lemma {:induction false} DedupIsSortedAndDistinct(log: seq<Entry>)
    requires Sorted(log)
    ensures Sorted(Dedup(log))
    ensures forall i, j :: 0 <= i < j < |Dedup(log)| ==> Dedup(log)[i] != Dedup(log)[j]
  {
    if log != [] {
      var init := log[..|log| - 1];
      DedupIsSortedAndDistinct(init);
      DedupHasSameEntries(init);
      forall i | 0 <= i < |Dedup(init)|
        ensures Dedup(init)[i].timestamp <= log[|log| - 1].timestamp
      {
        assert Dedup(init)[i] in init;
      }
      assert log[|log| - 1] !in init ==> forall i :: 0 <= i < |Dedup(init)| ==> Dedup(init)[i] != log[|log| - 1];
    }
  }

  lemma DedupSnoc(log: seq<Entry>, e: Entry)
    ensures Dedup(log + [e]) == if e in log then Dedup(log) else Dedup(log) + [e]
  {
    assert (log + [e])[..|log|] == log;
  }

  lemma {:induction false} DedupOfPrefix(a: seq<Entry>, b: seq<Entry>)
    ensures Dedup(a) <= Dedup(a + b)
    decreases |b|
  {
    if b == [] {
      assert a + b == a;
    } else {
      var init := b[..|b| - 1];
      assert a + b == (a + init) + [b[|b| - 1]];
      DedupOfPrefix(a, init);
      DedupSnoc(a + init, b[|b| - 1]);
    }
  }

  // ---- cursors of what was emitted ----

  function Group(digest: Digest, emitted: seq<Entry>, timestamp: int): set<nat> {
    set i | 0 <= i < |emitted| && emitted[i].timestamp == timestamp :: digest(emitted[i])
  }

  /** The cursor of a reader that has emitted exactly `emitted`, before it is trimmed for storage. */
  function CursorAfter(digest: Digest, emitted: seq<Entry>): LogCursor {
    if emitted == [] then NO_CURSOR
    else
      var last := emitted[|emitted| - 1].timestamp;
      LogCursor(Some(last), Group(digest, emitted, last))
  }

  /** The cursor skips an entry exactly when it was emitted, for entries no older than what was emitted last. */
  lemma CursorSkipsEmitted(digest: Digest, emitted: seq<Entry>, e: Entry)
    requires Injective(digest) && Sorted(emitted)
    ensures e in emitted ==> Skipped(digest, CursorAfter(digest, emitted), e)
    ensures e !in emitted && (emitted != [] ==> e.timestamp >= emitted[|emitted| - 1].timestamp) ==>
              !Skipped(digest, CursorAfter(digest, emitted), e)
  {
    if e in emitted {
      var i :| 0 <= i < |emitted| && emitted[i] == e;
      assert emitted[i].timestamp <= emitted[|emitted| - 1].timestamp;
      assert e.timestamp == emitted[|emitted| - 1].timestamp ==> digest(emitted[i]) in Group(digest, emitted, e.timestamp);
    }
  }

  lemma CursorMoves(digest: Digest, emitted: seq<Entry>, e: Entry)
    requires emitted != [] ==> e.timestamp >= emitted[|emitted| - 1].timestamp
    requires Sorted(emitted)
    ensures Past(digest, CursorAfter(digest, emitted), e) == CursorAfter(digest, emitted + [e])
  {
    var more := emitted + [e];
    var now := Group(digest, more, e.timestamp);
    assert digest(more[|emitted|]) in now;
    assert forall i :: 0 <= i < |emitted| ==> more[i] == emitted[i];
    forall x
      ensures x in now <==> x in Group(digest, emitted, e.timestamp) || x == digest(e)
    {
      if x in Group(digest, emitted, e.timestamp) {
        var i :| 0 <= i < |emitted| && emitted[i].timestamp == e.timestamp && digest(emitted[i]) == x;
        assert more[i].timestamp == e.timestamp && digest(more[i]) == x;
      }
    }
    if emitted != [] && e.timestamp > emitted[|emitted| - 1].timestamp {
      assert Group(digest, emitted, e.timestamp) == {};
    }
  }

  // ---- one poll of a growing log ----

  function Wrapped(entries: seq<Entry>): (r: seq<Option<Entry>>)
    ensures |r| == |entries| && forall i :: 0 <= i < |r| ==> r[i] == Some(entries[i])
  {
    seq(|entries|, i requires 0 <= i < |entries| => Some(entries[i]))
  }

  /** `emitted` lies between what the entries already seen amount to and what the whole log amounts to. */
  ghost predicate Between(seen: seq<Entry>, emitted: seq<Entry>, log: seq<Entry>) {
    Dedup(seen) <= emitted <= Dedup(log)
  }

  /** Reading `e` after `seen`: it is new exactly when everything emitted had been seen. */
  lemma NextEntry(seen: seq<Entry>, emitted: seq<Entry>, e: Entry, rest: seq<Entry>)
    requires Between(seen, emitted, seen + [e] + rest)
    ensures e !in emitted ==> emitted == Dedup(seen) && Between(seen + [e], emitted + [e], seen + [e] + rest)
    ensures e in emitted ==> Between(seen + [e], emitted, seen + [e] + rest)
  {
    var log := seen + [e] + rest;
    DedupSnoc(seen, e);
    DedupOfPrefix(seen + [e], rest);
    DedupHasSameEntries(seen);
    if e !in seen {
      assert Dedup(log)[|Dedup(seen)|] == e;
      if |emitted| > |Dedup(seen)| { assert emitted[|Dedup(seen)|] == e; }
    }
  }

  lemma NewEntryIsLatest(seen: seq<Entry>, emitted: seq<Entry>, e: Entry, rest: seq<Entry>)
    requires Sorted(seen + [e] + rest) && emitted == Dedup(seen) && emitted != []
    ensures e.timestamp >= emitted[|emitted| - 1].timestamp
  {
    DedupHasSameEntries(seen);
    var last := emitted[|emitted| - 1];
    assert last in seen;
    var i :| 0 <= i < |seen| && seen[i] == last;
    var log := seen + [e] + rest;
    assert log[i] == last && log[|seen|] == e;
  }

  lemma PrefixIsSorted(a: seq<Entry>, b: seq<Entry>)
    requires a <= b && Sorted(b)
    ensures Sorted(a)
  {
  }

  lemma {:induction false} ScanEmitsWhatIsNew(digest: Digest, seen: seq<Entry>, emitted: seq<Entry>, rest: seq<Entry>, limit: nat)
    requires Injective(digest) && Sorted(seen + rest) && Between(seen, emitted, seen + rest)
    ensures var all := Dedup(seen + rest);
            var scan := Scan(digest, CursorAfter(digest, emitted), Wrapped(rest), limit);
            && scan.Some?
            && emitted + scan.value.lines == all[..Min(|emitted| + limit, |all|)]
            && scan.value.cursor == CursorAfter(digest, emitted + scan.value.lines)
    decreases |rest|
  {
    hide Dedup, CursorAfter, Skipped, Past, Sorted;
    if rest == [] || limit == 0 {
      assert seen + [] == seen;
      assert emitted + [] == emitted;
    } else {
      var e, tail := rest[0], rest[1..];
      assert rest == [e] + tail && seen + rest == seen + [e] + tail && seen + rest == (seen + [e]) + tail;
      assert Wrapped(rest)[1..] == Wrapped(tail);
      NextEntry(seen, emitted, e, tail);
      DedupIsSortedAndDistinct(seen + rest);
      PrefixIsSorted(emitted, Dedup(seen + rest));
      CursorSkipsEmitted(digest, emitted, e);
      if e in emitted {
        ScanEmitsWhatIsNew(digest, seen + [e], emitted, tail, limit);
      } else {
        if emitted != [] { NewEntryIsLatest(seen, emitted, e, tail); }
        CursorMoves(digest, emitted, e);
        ScanEmitsWhatIsNew(digest, seen + [e], emitted + [e], tail, limit - 1);
        var inner := Scan(digest, CursorAfter(digest, emitted + [e]), Wrapped(tail), limit - 1).value;
        assert (emitted + [e]) + inner.lines == emitted + ([e] + inner.lines);
      }
    }
  }

  lemma WrappedRest(front: seq<Entry>, rest: seq<Option<Entry>>)
    requires front != []
    ensures var response := Wrapped(front) + rest; response[0] == Some(front[0]) && response[1..] == Wrapped(front[1..]) + rest
  {
  }

  /** A raw line without a timestamp makes the poll fail exactly if it is reached: if the lines before it leave room under the limit. */
  lemma {:induction false} MalformedLineFailsIfReached(digest: Digest, c: LogCursor, front: seq<Entry>, rest: seq<Option<Entry>>, limit: nat)
    ensures var before := Scan(digest, c, Wrapped(front), limit);
            && before.Some? && |before.value.lines| <= limit
            && Scan(digest, c, Wrapped(front) + [None] + rest, limit) == if |before.value.lines| < limit then None else before
    decreases |front|
  {
    hide Skipped, Past;
    if front == [] {
      assert Wrapped(front) + [None] + rest == [None] + rest;
    } else {
      assert Wrapped(front) + [None] + rest == Wrapped(front) + ([None] + rest);
      WrappedRest(front, [None] + rest);
      WrappedRest(front, []);
      assert Wrapped(front) + [] == Wrapped(front) && Wrapped(front[1..]) + [] == Wrapped(front[1..]);
      assert Wrapped(front[1..]) + [None] + rest == Wrapped(front[1..]) + ([None] + rest);
      if limit > 0 {
        MalformedLineFailsIfReached(digest, c, front[1..], rest, limit);
        MalformedLineFailsIfReached(digest, Past(digest, c, front[0]), front[1..], rest, limit - 1);
      }
    }
  }

  // ---- what a stored cursor forgets ----

  lemma SubsetCard(a: set<nat>, b: set<nat>)
    requires a <= b
    ensures |a| <= |b|
  {
    assert b == a + (b - a) && a !! (b - a);
  }

  /** Up to 100 digests nothing is forgotten. */
  lemma NothingForgotten(s: set<nat>)
    requires |s| <= KEPT
    ensures KeepLargest(s) == s
  {
    forall x | x in s
      ensures |Above(s, x)| < KEPT
    {
      SubsetCard(Above(s, x), s - {x});
    }
  }

  lemma {:induction false} LeastOf(s: set<nat>) returns (least: nat)
    requires s != {}
    ensures least in s && forall x :: x in s ==> least <= x
  {
    var x :| x in s;
    if s == {x} {
      least := x;
    } else {
      var other := LeastOf(s - {x});
      least := if other < x then other else x;
      assert forall y :: y in s ==> y == x || y in s - {x};
    }
  }

  /** Beyond 100 at least one is. */
  lemma SomethingForgotten(s: set<nat>) returns (lost: nat)
    requires |s| > KEPT
    ensures lost in s && lost !in KeepLargest(s)
  {
    lost := LeastOf(s);
    assert Above(s, lost) == s - {lost};
  }

  // ---- polls over time ----

  /** One poll: what the log holds by then, where the response starts, and the line limit of the cycle. */
  datatype Poll = Poll(log: seq<Entry>, from: nat, limit: nat)

  /** The digests of all lines of the log with one timestamp. */
  ghost predicate GroupsFit(digest: Digest, log: seq<Entry>) {
    forall t :: |Group(digest, log, t)| <= 100
  }

  /**
   What the Engine promises: the log only grows, its timestamps never decrease, and a response is
   the log from some point on that leaves out only lines older than the cursor (all of it, the
   first time).
   */
  ghost predicate Serves(before: seq<Entry>, emitted: seq<Entry>, poll: Poll) {
    && before <= poll.log && Sorted(poll.log)
    && poll.from <= |poll.log|
    && (emitted == [] ==> poll.from == 0)
    && forall i :: 0 <= i < poll.from && emitted != [] ==> poll.log[i].timestamp < emitted[|emitted| - 1].timestamp
  }

  function Response(poll: Poll): seq<Entry> {
    if poll.from <= |poll.log| then poll.log[poll.from..] else []
  }

  /** A source that has polled: its stored cursor and everything it emitted. */
  datatype Reader = Reader(cursor: LogCursor, emitted: seq<Entry>)

  const START := Reader(NO_CURSOR, [])

  function Observe(digest: Digest, r: Reader, poll: Poll): Reader {
    match Scan(digest, r.cursor, Wrapped(Response(poll)), poll.limit)
    case None => r
    case Some(batch) => Reader(Stored(batch.cursor), r.emitted + batch.lines)
  }

  function ObserveAll(digest: Digest, r: Reader, polls: seq<Poll>): Reader
    decreases |polls|
  {
    if polls == [] then r else ObserveAll(digest, Observe(digest, r, polls[0]), polls[1..])
  }

  ghost predicate ServesAll(digest: Digest, before: seq<Entry>, r: Reader, polls: seq<Poll>)
    decreases |polls|
  {
    polls == [] ||
    (Serves(before, r.emitted, polls[0]) && GroupsFit(digest, polls[0].log)
     && ServesAll(digest, polls[0].log, Observe(digest, r, polls[0]), polls[1..]))
  }

  function LastLog(before: seq<Entry>, polls: seq<Poll>): seq<Entry> {
    if polls == [] then before else polls[|polls| - 1].log
  }

  /** The reader holds a prefix of the log without repetitions, and its cursor is the one that belongs to it. */
  ghost predicate InStep(digest: Digest, r: Reader, log: seq<Entry>) {
    r.emitted <= Dedup(log) && r.cursor == CursorAfter(digest, r.emitted)
  }

  lemma GroupOfPrefix(digest: Digest, emitted: seq<Entry>, log: seq<Entry>, timestamp: int)
    requires emitted <= Dedup(log)
    ensures Group(digest, emitted, timestamp) <= Group(digest, log, timestamp)
  {
    DedupHasSameEntries(log);
    forall x | x in Group(digest, emitted, timestamp)
      ensures x in Group(digest, log, timestamp)
    {
      var i :| 0 <= i < |emitted| && emitted[i].timestamp == timestamp && digest(emitted[i]) == x;
      assert emitted[i] == Dedup(log)[i];
      assert emitted[i] in log;
    }
  }

  lemma StoredCursorIsExact(digest: Digest, emitted: seq<Entry>, log: seq<Entry>)
    requires emitted <= Dedup(log) && GroupsFit(digest, log)
    ensures Stored(CursorAfter(digest, emitted)) == CursorAfter(digest, emitted)
  {
    if emitted != [] {
      var last := emitted[|emitted| - 1].timestamp;
      GroupOfPrefix(digest, emitted, log, last);
      SubsetCard(Group(digest, emitted, last), Group(digest, log, last));
      NothingForgotten(Group(digest, emitted, last));
    } else {
      NothingForgotten({});
    }
  }

  /** Lines the response leaves out were all emitted before. */
  lemma OlderLinesWereEmitted(emitted: seq<Entry>, poll: Poll)
    requires Serves([], emitted, poll) && emitted <= Dedup(poll.log)
    ensures Between(poll.log[..poll.from], emitted, poll.log)
  {
    hide Dedup;
    var older := poll.log[..poll.from];
    assert older + poll.log[poll.from..] == poll.log;
    DedupOfPrefix(older, poll.log[poll.from..]);
    DedupHasSameEntries(older);
    if emitted != [] {
      var last := emitted[|emitted| - 1];
      assert Dedup(poll.log)[|emitted| - 1] == last;
      assert forall j :: 0 <= j < |Dedup(older)| ==> Dedup(older)[j] in older;
      assert forall j :: 0 <= j < |Dedup(older)| ==> Dedup(older)[j] != last;
    }
  }

  /** Each poll emits the next lines of the log without repetitions, as many as its limit allows. */
  lemma ObserveIsExact(digest: Digest, r: Reader, before: seq<Entry>, poll: Poll)
    requires Injective(digest) && InStep(digest, r, before) && Serves(before, r.emitted, poll) && GroupsFit(digest, poll.log)
    ensures InStep(digest, Observe(digest, r, poll), poll.log)
    ensures Observe(digest, r, poll).emitted == Dedup(poll.log)[..Min(|r.emitted| + poll.limit, |Dedup(poll.log)|)]
  {
    hide Dedup, Scan, CursorAfter, GroupsFit, Sorted, KeepLargest;
    assert before + poll.log[|before|..] == poll.log;
    DedupOfPrefix(before, poll.log[|before|..]);
    OlderLinesWereEmitted(r.emitted, poll);
    var older := poll.log[..poll.from];
    assert older + Response(poll) == poll.log;
    ScanEmitsWhatIsNew(digest, older, r.emitted, Response(poll), poll.limit);
    StoredCursorIsExact(digest, Observe(digest, r, poll).emitted, poll.log);
  }

  lemma {:induction false} ObserveAllIsExact(digest: Digest, r: Reader, before: seq<Entry>, polls: seq<Poll>)
    requires Injective(digest) && InStep(digest, r, before) && ServesAll(digest, before, r, polls)
    ensures InStep(digest, ObserveAll(digest, r, polls), LastLog(before, polls))
    decreases |polls|
  {
    if polls != [] {
      ObserveIsExact(digest, r, before, polls[0]);
      hide Observe, Serves, GroupsFit, InStep, Dedup;
      ObserveAllIsExact(digest, Observe(digest, r, polls[0]), polls[0].log, polls[1..]);
    }
  }

  lemma NothingEmittedYet(digest: Digest)
    ensures InStep(digest, START, [])
  {
  }

  /**
   Exactly once: however the log grows and whatever the limits, what all polls emit together is a
   prefix of the log without repetitions. A poll that is not at its limit reaches the end of it,
   and polling a fully read log again emits nothing.
   */
  lemma PollingIsExactlyOnce(digest: Digest, polls: seq<Poll>, last: Poll)
    requires Injective(digest) && ServesAll(digest, [], START, polls)
    requires var r := ObserveAll(digest, START, polls);
             Serves(LastLog([], polls), r.emitted, last) && GroupsFit(digest, last.log)
    ensures var r := ObserveAll(digest, START, polls);
            && r.emitted <= Dedup(LastLog([], polls))
            && Observe(digest, r, last).emitted == Dedup(last.log)[..Min(|r.emitted| + last.limit, |Dedup(last.log)|)]
            && (r.emitted == Dedup(last.log) ==> Observe(digest, r, last) == r)
  {
    hide Dedup, Observe, ObserveAll, ServesAll, CursorAfter, GroupsFit, Sorted;
    NothingEmittedYet(digest);
    ObserveAllIsExact(digest, START, [], polls);
    ObserveIsExact(digest, ObserveAll(digest, START, polls), LastLog([], polls), last);
    assert Dedup(last.log)[..|Dedup(last.log)|] == Dedup(last.log);
  }

  // ---- the limit of the promise ----

  lemma {:induction false} SilentScanSkipsAll(digest: Digest, c: LogCursor, entries: seq<Entry>, limit: nat)
    requires limit > 0 && Scan(digest, c, Wrapped(entries), limit).Some?
    requires Scan(digest, c, Wrapped(entries), limit).value.lines == []
    ensures forall e :: e in entries ==> Skipped(digest, c, e)
    decreases |entries|
  {
    if entries != [] {
      assert Wrapped(entries)[1..] == Wrapped(entries[1..]);
      if Skipped(digest, c, entries[0]) { SilentScanSkipsAll(digest, c, entries[1..], limit); }
    }
  }

  lemma {:induction false} ScanSkipsAll(digest: Digest, c: LogCursor, entries: seq<Entry>, limit: nat)
    requires forall e :: e in entries ==> Skipped(digest, c, e)
    ensures Scan(digest, c, Wrapped(entries), limit) == Some(Batch([], c))
    decreases |entries|
  {
    if entries != [] && limit != 0 {
      assert Wrapped(entries)[1..] == Wrapped(entries[1..]);
      ScanSkipsAll(digest, c, entries[1..], limit);
    }
  }

  /**
   Why 100 matters: polling a fully read log again, through the stored cursor, emits nothing if
   and only if its last timestamp has at most 100 distinct lines. One more and lines come back.
   */
  lemma RepollIsSilentIffGroupFits(digest: Digest, log: seq<Entry>, from: nat, limit: nat)
    requires Injective(digest) && Sorted(log) && log != [] && from <= |log| && limit > 0
    requires forall i :: 0 <= i < from ==> log[i].timestamp < log[|log| - 1].timestamp
    ensures var last := log[|log| - 1].timestamp;
            var again := Scan(digest, Stored(CursorAfter(digest, Dedup(log))), Wrapped(log[from..]), limit);
            && again.Some?
            && (again.value.lines == [] <==> |Group(digest, log, last)| <= 100)
  {
    var last := log[|log| - 1].timestamp;
    var emitted := Dedup(log);
    var full := CursorAfter(digest, emitted);
    LastOfDedup(digest, log);
    ScanSucceeds(digest, Stored(full), log[from..], limit);
    if |Group(digest, log, last)| <= 100 {
      NothingForgotten(full.recent);
      forall e | e in log[from..]
        ensures Skipped(digest, Stored(full), e)
      {
        DedupHasSameEntries(log);
        DedupIsSortedAndDistinct(log);
        assert e in log;
        CursorSkipsEmitted(digest, emitted, e);
      }
      ScanSkipsAll(digest, Stored(full), log[from..], limit);
    } else {
      var lost := SomethingForgotten(full.recent);
      var i :| 0 <= i < |log| && log[i].timestamp == last && digest(log[i]) == lost;
      assert log[i] == log[from..][i - from];
      assert !Skipped(digest, Stored(full), log[i]);
      if Scan(digest, Stored(full), Wrapped(log[from..]), limit).value.lines == [] {
        SilentScanSkipsAll(digest, Stored(full), log[from..], limit);
      }
    }
  }

  lemma {:induction false} ScanSucceeds(digest: Digest, c: LogCursor, entries: seq<Entry>, limit: nat)
    ensures Scan(digest, c, Wrapped(entries), limit).Some?
    decreases |entries|
  {
    if entries != [] && limit != 0 {
      assert Wrapped(entries)[1..] == Wrapped(entries[1..]);
      if Skipped(digest, c, entries[0]) { ScanSucceeds(digest, c, entries[1..], limit); }
      else { ScanSucceeds(digest, Past(digest, c, entries[0]), entries[1..], limit - 1); }
    }
  }

  /** The cursor of a fully read log holds the digests of all lines at its last timestamp. */
  lemma LastOfDedup(digest: Digest, log: seq<Entry>)
    requires Sorted(log) && log != []
    ensures var last := log[|log| - 1].timestamp;
            CursorAfter(digest, Dedup(log)) == LogCursor(Some(last), Group(digest, log, last))
  {
    hide Dedup, Group;
    var emitted, last := Dedup(log), log[|log| - 1];
    DedupHasSameEntries(log);
    DedupIsSortedAndDistinct(log);
    assert last in emitted;
    var k :| 0 <= k < |emitted| && emitted[k] == last;
    assert emitted[|emitted| - 1] in log;
    assert emitted[k].timestamp <= emitted[|emitted| - 1].timestamp;
    SameGroup(digest, emitted, log, last.timestamp);
  }

  lemma SameGroup(digest: Digest, a: seq<Entry>, b: seq<Entry>, t: int)
    requires forall e :: e in a <==> e in b
    ensures Group(digest, a, t) == Group(digest, b, t)
  {
    GroupWithin(digest, a, b, t);
    GroupWithin(digest, b, a, t);
  }

  lemma GroupWithin(digest: Digest, a: seq<Entry>, b: seq<Entry>, t: int)
    requires forall e :: e in a ==> e in b
    ensures Group(digest, a, t) <= Group(digest, b, t)
  {
    forall x | x in Group(digest, a, t) ensures x in Group(digest, b, t) {
      var i :| 0 <= i < |a| && a[i].timestamp == t && digest(a[i]) == x;
      assert a[i] in b;
      var j :| 0 <= j < |b| && b[j] == a[i];
    }
  }
}
