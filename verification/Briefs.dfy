/** Building a brief of an incident that fits a byte limit: `BriefBuilder.build`. */
module Briefs {
  import opened Common
  import opened Ordering
  import opened Incidents

  datatype BriefSample = BriefSample(
    eventId: string, eventType: string, occurredAt: int, severity: string, line: string, evidenceRef: string)

  datatype Brief = Brief(
    key: Key, occurrenceCount: nat, omittedEventCount: nat, samples: seq<BriefSample>,
    evidenceRefs: seq<string>, redactionClasses: seq<string>)

  /** What the redactor makes of a line. */
  datatype Redaction = Redaction(text: string, matches: set<string>, safeToExport: bool)

  /** The redactor, and the length in bytes of a brief written as JSON. */
  datatype Builder = Builder(redact: string -> Redaction, size: Brief -> nat)

  datatype Result = Built(brief: Brief) | LimitTooSmall | NotFound | UnsafeContent(eventId: string) | TooLarge

  const LINE_LIMITS: seq<nat> := [256, 128, 64, 32, 0]

  const ELLIPSIS: string := "\U{2026}"

  // ---- the pieces of a brief ----

  function AsSample(redact: string -> Redaction, event: EventRecord): BriefSample {
    BriefSample(event.eventId, event.eventType, event.occurredAt, event.severity, redact(event.line).text, event.evidenceRef)
  }

  function AsSamples(redact: string -> Redaction, events: seq<EventRecord>): (samples: seq<BriefSample>)
    ensures |samples| == |events|
  {
    seq(|events|, i requires 0 <= i < |events| => AsSample(redact, events[i]))
  }

  function Classes(redact: string -> Redaction, events: seq<EventRecord>): set<string> {
    if events == [] then {} else Classes(redact, events[..|events| - 1]) + redact(events[|events| - 1].line).matches
  }

  /** The evidence of the samples, each once, in order of first appearance. */
  function EvidenceRefs(samples: seq<BriefSample>): seq<string> {
    if samples == [] then []
    else
      var refs := EvidenceRefs(samples[..|samples| - 1]);
      var ref := samples[|samples| - 1].evidenceRef;
      if ref in refs then refs else refs + [ref]
  }

  ghost function BriefOf(key: Key, stored: Stored, samples: seq<BriefSample>, classes: set<string>): Brief {
    Brief(key, stored.incident.occurrenceCount, Max(0, stored.incident.occurrenceCount - |samples|), samples,
          EvidenceRefs(samples), Sorted(classes))
  }

  /** `_make_brief`. */
  method MakeBrief(key: Key, stored: Stored, samples: seq<BriefSample>, classes: set<string>) returns (brief: Brief)
    ensures brief == BriefOf(key, stored, samples, classes)
  {
    var refs: seq<string> := [];
    for i := 0 to |samples|
      invariant refs == EvidenceRefs(samples[..i])
    {
      assert samples[..i + 1][..i] == samples[..i];
      if samples[i].evidenceRef !in refs { refs := refs + [samples[i].evidenceRef]; }
    }
    assert samples[..|samples|] == samples;
    var list := SortSet(classes);
    brief := Brief(key, stored.incident.occurrenceCount, Max(0, stored.incident.occurrenceCount - |samples|), samples, refs, list);
  }

  // ---- the ladder of ever smaller briefs ----

  function PopMiddle(samples: seq<BriefSample>): (fewer: seq<BriefSample>)
    requires |samples| > 2
    ensures |fewer| == |samples| - 1
  {
    samples[..|samples| / 2] + samples[|samples| / 2 + 1..]
  }

  function CutLine(line: string, limit: nat): string {
    if |line| > limit then line[..limit] + ELLIPSIS else line
  }

  function CutLines(samples: seq<BriefSample>, limit: nat): (cut: seq<BriefSample>)
    ensures |cut| == |samples|
  {
    seq(|samples|, i requires 0 <= i < |samples| => samples[i].(line := CutLine(samples[i].line, limit)))
  }

  function CutLadder(samples: seq<BriefSample>, limits: seq<nat>): (rungs: seq<seq<BriefSample>>)
    ensures |rungs| == |limits|
    decreases |limits|
  {
    if limits == [] then []
    else var cut := CutLines(samples, limits[0]); [cut] + CutLadder(cut, limits[1..])
  }

  /** What is tried, in order: all samples, then without middle ones down to two, then with ever shorter lines. */
  function Ladder(samples: seq<BriefSample>): (rungs: seq<seq<BriefSample>>)
    ensures |rungs| > 0
    decreases |samples|
  {
    [samples] + (if |samples| > 2 then Ladder(PopMiddle(samples)) else CutLadder(samples, LINE_LIMITS))
  }

  ghost predicate Fits(b: Builder, key: Key, stored: Stored, classes: set<string>, maxBytes: int, samples: seq<BriefSample>) {
    b.size(BriefOf(key, stored, samples, classes)) <= maxBytes
  }

  /** The first rung that fits. */
  ghost function FirstFit(b: Builder, key: Key, stored: Stored, classes: set<string>, maxBytes: int, rungs: seq<seq<BriefSample>>)
    : Option<seq<BriefSample>>
    decreases |rungs|
  {
    if rungs == [] then None
    else if Fits(b, key, stored, classes, maxBytes, rungs[0]) then Some(rungs[0])
    else FirstFit(b, key, stored, classes, maxBytes, rungs[1..])
  }

  /** The first event whose line must not be exported. */
  function FirstUnsafe(redact: string -> Redaction, events: seq<EventRecord>): Option<EventRecord>
    decreases |events|
  {
    if events == [] then None
    else if !redact(events[0].line).safeToExport then Some(events[0])
    else FirstUnsafe(redact, events[1..])
  }

  /** What `build` answers. */
  ghost function BuildOf(b: Builder, key: Key, found: Option<Stored>, maxBytes: int): Result {
    if maxBytes < 512 then LimitTooSmall
    else if found.None? then NotFound
    else
      var events := found.value.samples;
      if FirstUnsafe(b.redact, events).Some? then UnsafeContent(FirstUnsafe(b.redact, events).value.eventId)
      else
        var classes := Classes(b.redact, events);
        var fit := FirstFit(b, key, found.value, classes, maxBytes, Ladder(AsSamples(b.redact, events)));
        if fit.None? then TooLarge else Built(BriefOf(key, found.value, fit.value, classes))
  }

  /** The first `(left + 1) / 2` and the last `left / 2` samples. */
  function Halves(samples: seq<BriefSample>, left: nat): seq<BriefSample>
    requires left <= |samples|
  {
    samples[..left - left / 2] + samples[|samples| - left / 2..]
  }

  lemma PopKeepsHalves(samples: seq<BriefSample>, left: nat)
    requires 2 <= left < |samples|
    ensures Halves(PopMiddle(samples), left) == Halves(samples, left)
  {
    var n, fewer := |samples|, PopMiddle(samples);
    var last, first := left / 2, left - left / 2;
    assert first <= n / 2 <= n - 1 - last;
    assert fewer[..first] == samples[..first];
    assert fewer[n - 1 - last..] == samples[n - last..];
  }

  lemma AllHalves(samples: seq<BriefSample>)
    ensures Halves(samples, |samples|) == samples
  {
    var k := |samples| - |samples| / 2;
    assert samples[..k] + samples[k..] == samples;
  }

  lemma FirstRung(samples: seq<BriefSample>)
    ensures |Ladder(samples)| > 0 && Ladder(samples)[0] == samples
  {
  }

  lemma LaterRungs(samples: seq<BriefSample>)
    ensures Ladder(samples)[1..] == if |samples| > 2 then Ladder(PopMiddle(samples)) else CutLadder(samples, LINE_LIMITS)
  {
  }

  /** While more than two samples are left, the first and the last half of them are kept: it is the middle that goes. */
  lemma {:induction false} LadderDropsMiddle(samples: seq<BriefSample>, i: nat)
    requires i < |samples| && (i == 0 || i + 2 <= |samples|)
    ensures i < |Ladder(samples)| && Ladder(samples)[i] == Halves(samples, |samples| - i)
    decreases |samples|
  {
    hide *;
    FirstRung(samples);
    if i == 0 {
      AllHalves(samples);
    } else {
      LaterRungs(samples);
      LadderDropsMiddle(PopMiddle(samples), i - 1);
      PopKeepsHalves(samples, |samples| - i);
      assert Ladder(samples)[i] == Ladder(samples)[1..][i - 1];
    }
  }

  /** What is left when no more are dropped: everything, or the first and the last sample. */
  function Ends(samples: seq<BriefSample>): seq<BriefSample> {
    if |samples| <= 2 then samples else [samples[0], samples[|samples| - 1]]
  }

  lemma PopKeepsEnds(samples: seq<BriefSample>)
    requires |samples| > 2
    ensures Ends(PopMiddle(samples)) == Ends(samples)
  {
  }

  lemma FewHaveEnds(samples: seq<BriefSample>)
    requires |samples| <= 2
    ensures Ends(samples) == samples
  {
  }

  /** The rung is these samples, all with their lines cut at the same limit. */
  predicate CutAt(rung: seq<BriefSample>, samples: seq<BriefSample>, limit: Option<nat>) {
    && |rung| == |samples|
    && forall k :: 0 <= k < |samples| ==> rung[k] == samples[k].(line := rung[k].line) && IsCut(rung[k].line, samples[k].line, limit)
  }

  /** The rest of the rungs are five: what is left then, all with their lines cut at the same limit. */
  lemma {:induction false} LadderEndsCut(samples: seq<BriefSample>, j: nat)
    requires j < 5
    ensures |Ladder(samples)| == Max(0, |samples| - 2) + 6
    ensures CutAt(Ladder(samples)[|Ladder(samples)| - 5 + j], Ends(samples), Some([256, 128, 64, 32, 0][j]))
    decreases |samples|
  {
    hide Ladder, PopMiddle, CutLadder, Ends, CutAt;
    FirstRung(samples);
    LaterRungs(samples);
    var later := Ladder(samples)[1..];
    if |samples| > 2 {
      LadderEndsCut(PopMiddle(samples), j);
      PopKeepsEnds(samples);
    } else {
      FewHaveEnds(samples);
      NoneCut(samples);
      CutLadderCuts(samples, samples, None, LINE_LIMITS, j);
    }
    assert Ladder(samples)[|Ladder(samples)| - 5 + j] == later[|later| - 5 + j];
  }

  lemma NoneCut(samples: seq<BriefSample>)
    ensures CutAt(samples, samples, None)
  {
  }

  lemma CutMore(cut: seq<BriefSample>, samples: seq<BriefSample>, limit: Option<nat>, shorter: nat)
    requires CutAt(cut, samples, limit) && (limit.Some? ==> shorter <= limit.value)
    ensures CutAt(CutLines(cut, shorter), samples, Some(shorter))
  {
    forall k | 0 <= k < |samples| ensures IsCut(CutLine(cut[k].line, shorter), samples[k].line, Some(shorter)) {
      CutAgain(cut[k].line, samples[k].line, limit, shorter);
    }
  }

  lemma {:induction false} CutLadderCuts(cut: seq<BriefSample>, samples: seq<BriefSample>, limit: Option<nat>, limits: seq<nat>, j: nat)
    requires CutAt(cut, samples, limit) && j < |limits|
    requires forall i :: 0 <= i < |limits| && limit.Some? ==> limits[i] <= limit.value
    requires forall i, k :: 0 <= i < k < |limits| ==> limits[k] <= limits[i]
    ensures CutAt(CutLadder(cut, limits)[j], samples, Some(limits[j]))
    decreases |limits|
  {
    hide CutAt, CutLines;
    var next := CutLines(cut, limits[0]);
    CutMore(cut, samples, limit, limits[0]);
    assert CutLadder(cut, limits) == [next] + CutLadder(next, limits[1..]);
    if j > 0 {
      CutLadderCuts(next, samples, Some(limits[0]), limits[1..], j - 1);
    }
  }

  // ---- the builder ----

  /** Redacts every sample; stops at the first that must not be exported. */
  method RedactSamples(redact: string -> Redaction, events: seq<EventRecord>)
    returns (offender: Option<EventRecord>, samples: seq<BriefSample>, classes: set<string>)
    ensures offender == FirstUnsafe(redact, events)
    ensures offender.None? ==> samples == AsSamples(redact, events) && classes == Classes(redact, events)
  {
    samples, classes := [], {};
    for i := 0 to |events|
      invariant FirstUnsafe(redact, events) == FirstUnsafe(redact, events[i..])
      invariant samples == AsSamples(redact, events[..i]) && classes == Classes(redact, events[..i])
    {
      var redaction := redact(events[i].line);
      assert events[i..][1..] == events[i + 1..] && events[..i + 1][..i] == events[..i];
      if !redaction.safeToExport { return Some(events[i]), samples, classes; }
      classes := classes + redaction.matches;
      samples := samples + [AsSample(redact, events[i])];
    }
    assert events[..|events|] == events;
    offender := None;
  }

  /** `build`. */
  method Build(b: Builder, key: Key, found: Option<Stored>, maxBytes: int) returns (result: Result)
    ensures result == BuildOf(b, key, found, maxBytes)
  {
    if maxBytes < 512 { return LimitTooSmall; }
    if found.None? { return NotFound; }
    var stored := found.value;
    var offender, samples, classes := RedactSamples(b.redact, stored.samples);
    if offender.Some? { return UnsafeContent(offender.value.eventId); }
    hide EvidenceRefs, Sorted;
    ghost var goal := FirstFit(b, key, stored, classes, maxBytes, Ladder(samples));
    var brief := MakeBrief(key, stored, samples, classes);
    while b.size(brief) > maxBytes && |samples| > 2
      invariant brief == BriefOf(key, stored, samples, classes)
      invariant goal == FirstFit(b, key, stored, classes, maxBytes, Ladder(samples))
      decreases |samples|
    {
      assert Ladder(samples)[1..] == Ladder(PopMiddle(samples));
      samples := samples[..|samples| / 2] + samples[|samples| / 2 + 1..];
      brief := MakeBrief(key, stored, samples, classes);
    }
    if b.size(brief) <= maxBytes {
      assert Ladder(samples)[0] == samples;
    } else {
      assert Ladder(samples)[1..] == CutLadder(samples, LINE_LIMITS);
    }
    for i := 0 to |LINE_LIMITS|
      invariant brief == BriefOf(key, stored, samples, classes)
      invariant if b.size(brief) <= maxBytes then goal == Some(samples)
                else goal == FirstFit(b, key, stored, classes, maxBytes, CutLadder(samples, LINE_LIMITS[i..]))
    {
      if b.size(brief) <= maxBytes { return Built(brief); }
      assert LINE_LIMITS[i..][1..] == LINE_LIMITS[i + 1..];
      assert CutLadder(samples, LINE_LIMITS[i..])
          == [CutLines(samples, LINE_LIMITS[i])] + CutLadder(CutLines(samples, LINE_LIMITS[i]), LINE_LIMITS[i + 1..]);
      samples := CutLines(samples, LINE_LIMITS[i]);
      brief := MakeBrief(key, stored, samples, classes);
    }
    if b.size(brief) > maxBytes { return TooLarge; }
    result := Built(brief);
  }

  // ---- what a brief keeps ----

  /** The list starts and ends with the same events, and has no more of them. */
  predicate KeepsEnds(samples: seq<BriefSample>, from: seq<BriefSample>) {
    && |samples| <= |from| && (from != [] ==> samples != [])
    && (samples != [] ==>
          samples[0].eventId == from[0].eventId && samples[|samples| - 1].eventId == from[|from| - 1].eventId)
  }

  lemma {:induction false} CutLadderKeepsEnds(samples: seq<BriefSample>, limits: seq<nat>, from: seq<BriefSample>)
    requires KeepsEnds(samples, from)
    ensures forall r :: r in CutLadder(samples, limits) ==> KeepsEnds(r, from)
    decreases |limits|
  {
    if limits != [] {
      CutLadderKeepsEnds(CutLines(samples, limits[0]), limits[1..], from);
    }
  }

  lemma {:induction false} LadderKeepsEnds(samples: seq<BriefSample>, from: seq<BriefSample>)
    requires KeepsEnds(samples, from)
    ensures forall r :: r in Ladder(samples) ==> KeepsEnds(r, from)
    decreases |samples|
  {
    if |samples| > 2 {
      LadderKeepsEnds(PopMiddle(samples), from);
    } else {
      CutLadderKeepsEnds(samples, LINE_LIMITS, from);
    }
  }

  /** Rung `i` fits and none before it does. */
  ghost predicate FitsFirst(b: Builder, key: Key, stored: Stored, classes: set<string>, maxBytes: int,
                            rungs: seq<seq<BriefSample>>, i: nat)
  {
    && i < |rungs| && Fits(b, key, stored, classes, maxBytes, rungs[i])
    && forall j :: 0 <= j < i ==> !Fits(b, key, stored, classes, maxBytes, rungs[j])
  }

  lemma {:induction false} FirstFitIsFirst(b: Builder, key: Key, stored: Stored, classes: set<string>, maxBytes: int,
                                           rungs: seq<seq<BriefSample>>) returns (i: nat)
    ensures match FirstFit(b, key, stored, classes, maxBytes, rungs)
            case None => forall r :: r in rungs ==> !Fits(b, key, stored, classes, maxBytes, r)
            case Some(samples) => i < |rungs| && FitsFirst(b, key, stored, classes, maxBytes, rungs, i) && rungs[i] == samples
    decreases |rungs|
  {
    hide Fits;
    i := 0;
    if rungs != [] && !Fits(b, key, stored, classes, maxBytes, rungs[0]) {
      var rest := rungs[1..];
      i := FirstFitIsFirst(b, key, stored, classes, maxBytes, rest);
      i := i + 1;
      assert forall r :: r in rungs ==> r == rungs[0] || r in rest;
      assert forall j :: 0 < j < |rungs| ==> rungs[j] == rest[j - 1];
    }
  }

  /** The first sample with evidence `a` comes before every sample with evidence `b`. */
  ghost predicate AppearsBefore(samples: seq<BriefSample>, a: string, b: string) {
    exists p :: 0 <= p < |samples| && samples[p].evidenceRef == a && forall q :: 0 <= q <= p ==> samples[q].evidenceRef != b
  }

  /** The evidence is in order of first appearance. */
  lemma {:induction false} EvidenceIsInOrder(samples: seq<BriefSample>, i: nat, j: nat)
    requires i < j < |EvidenceRefs(samples)|
    ensures AppearsBefore(samples, EvidenceRefs(samples)[i], EvidenceRefs(samples)[j])
  {
    var front, refs := samples[..|samples| - 1], EvidenceRefs(samples);
    var a, b := refs[i], refs[j];
    EvidenceIsListedOnce(front);
    if j < |EvidenceRefs(front)| {
      EvidenceIsInOrder(front, i, j);
      var p :| 0 <= p < |front| && front[p].evidenceRef == a && forall q :: 0 <= q <= p ==> front[q].evidenceRef != b;
      assert samples[p].evidenceRef == a && forall q :: 0 <= q <= p ==> samples[q] == front[q];
    } else {
      assert a in EvidenceRefs(front);
      var s :| s in front && s.evidenceRef == a;
      var p :| 0 <= p < |front| && front[p] == s;
      assert samples[p].evidenceRef == a;
      forall q | 0 <= q <= p ensures samples[q].evidenceRef != b { assert samples[q] == front[q] && front[q] in front; }
    }
  }

  lemma {:induction false} EvidenceIsListedOnce(samples: seq<BriefSample>)
    ensures forall ref :: ref in EvidenceRefs(samples) <==> exists s :: s in samples && s.evidenceRef == ref
    ensures forall i, j :: 0 <= i < j < |EvidenceRefs(samples)| ==> EvidenceRefs(samples)[i] != EvidenceRefs(samples)[j]
  {
    if samples != [] {
      var front, last := samples[..|samples| - 1], samples[|samples| - 1];
      EvidenceIsListedOnce(front);
      assert forall s :: s in samples <==> s in front || s == last;
    }
  }

  /** A brief that is built fits, keeps both ends of what is stored, lists its evidence and accounts for every event. */
  lemma BuiltBriefFits(b: Builder, key: Key, stored: Stored, maxBytes: int)
    requires stored.samples != [] && |stored.samples| <= stored.incident.occurrenceCount
    ensures var result := BuildOf(b, key, Some(stored), maxBytes);
            result.Built? ==>
              var brief := result.brief;
              && b.size(brief) <= maxBytes
              && brief.occurrenceCount == stored.incident.occurrenceCount == |brief.samples| + brief.omittedEventCount
              && brief.samples != []
              && brief.samples[0].eventId == stored.samples[0].eventId
              && brief.samples[|brief.samples| - 1].eventId == stored.samples[|stored.samples| - 1].eventId
              && (forall s :: s in brief.samples ==> s.evidenceRef in brief.evidenceRefs)
  {
    var samples, classes := AsSamples(b.redact, stored.samples), Classes(b.redact, stored.samples);
    var rungs := Ladder(samples);
    var i := FirstFitIsFirst(b, key, stored, classes, maxBytes, rungs);
    LadderKeepsEnds(samples, samples);
    hide Ladder, FirstFit, EvidenceRefs, Sorted, FirstUnsafe, Classes;
    var result := BuildOf(b, key, Some(stored), maxBytes);
    if result.Built? {
      assert rungs[i] in rungs && result.brief == BriefOf(key, stored, rungs[i], classes);
      EvidenceIsListedOnce(rungs[i]);
    }
  }

  /**
   For every history of an incident: a brief that is returned fits the limit, starts with the first
   event and ends with the latest, and its samples and the omitted events make up the whole history.
   */
  lemma BriefConservesHistory(b: Builder, history: seq<Candidate>, key: Key, maxBytes: int)
    ensures var events := EventsOf(history, key);
            var result := BuildOf(b, key, Get(RecordAll(EMPTY, history), key), maxBytes);
            result.Built? ==>
              var brief := result.brief;
              && b.size(brief) <= maxBytes
              && events != [] && brief.samples != []
              && brief.occurrenceCount == |events| == |brief.samples| + brief.omittedEventCount
              && brief.samples[0].eventId == events[0].eventId
              && brief.samples[|brief.samples| - 1].eventId == events[|events| - 1].eventId
  {
    IncidentTellsHistory(history, key);
    var found := Get(RecordAll(EMPTY, history), key);
    hide RecordAll, EventsOf, Get, BuildOf;
    if found.Some? {
      BuiltBriefFits(b, key, found.value, maxBytes);
    } else {
      NothingBuilt(b, key, maxBytes);
    }
  }

  lemma NothingBuilt(b: Builder, key: Key, maxBytes: int)
    ensures !BuildOf(b, key, None, maxBytes).Built?
  {
  }

  /** The brief of the first rung that fits. */
  ghost predicate IsFirstFit(b: Builder, key: Key, stored: Stored, classes: set<string>, maxBytes: int,
                             rungs: seq<seq<BriefSample>>, brief: Brief)
  {
    exists i: nat :: i < |rungs| && FitsFirst(b, key, stored, classes, maxBytes, rungs, i) && brief == BriefOf(key, stored, rungs[i], classes)
  }

  /** The first event that must not be exported has this id. */
  ghost predicate FirstOffender(redact: string -> Redaction, events: seq<EventRecord>, id: string) {
    exists i :: 0 <= i < |events| && events[i].eventId == id && !redact(events[i].line).safeToExport
                && forall j :: 0 <= j < i ==> redact(events[j].line).safeToExport
  }

  /** Nothing is dropped or cut that need not be; and a brief is refused exactly when content is unsafe or no rung fits. */
  lemma BriefIsFirstFit(b: Builder, key: Key, stored: Stored, maxBytes: int)
    requires maxBytes >= 512
    ensures var result := BuildOf(b, key, Some(stored), maxBytes);
            var classes := Classes(b.redact, stored.samples);
            var rungs := Ladder(AsSamples(b.redact, stored.samples));
            match result
            case UnsafeContent(id) => FirstOffender(b.redact, stored.samples, id)
            case TooLarge =>
              && (forall e :: e in stored.samples ==> b.redact(e.line).safeToExport)
              && (forall r :: r in rungs ==> !Fits(b, key, stored, classes, maxBytes, r))
            case Built(brief) =>
              && (forall e :: e in stored.samples ==> b.redact(e.line).safeToExport)
              && IsFirstFit(b, key, stored, classes, maxBytes, rungs, brief)
            case _ => false
  {
    UnsafeIsFound(b.redact, stored.samples);
    var i := FirstFitIsFirst(b, key, stored, Classes(b.redact, stored.samples), maxBytes, Ladder(AsSamples(b.redact, stored.samples)));
    hide FitsFirst;
  }

  lemma {:induction false} UnsafeIsFound(redact: string -> Redaction, events: seq<EventRecord>)
    ensures match FirstUnsafe(redact, events)
            case None => forall e :: e in events ==> redact(e.line).safeToExport
            case Some(e) => FirstOffender(redact, events, e.eventId)
    decreases |events|
  {
    if events != [] {
      var rest := events[1..];
      UnsafeIsFound(redact, rest);
      assert forall e :: e in events ==> e == events[0] || e in rest;
      if !redact(events[0].line).safeToExport {
        assert FirstOffender(redact, events, events[0].eventId);
      } else if FirstUnsafe(redact, rest).Some? {
        var id := FirstUnsafe(redact, rest).value.eventId;
        var i :| 0 <= i < |rest| && rest[i].eventId == id && !redact(rest[i].line).safeToExport
                 && forall j :: 0 <= j < i ==> redact(rest[j].line).safeToExport;
        assert events[i + 1] == rest[i] && forall j :: 0 < j < i + 1 ==> events[j] == rest[j - 1];
      }
    }
  }

  /** A limit below 512 bytes is refused whatever the incident, and an unknown incident whatever the limit. */
  lemma RefusedAtOnceIff(b: Builder, key: Key, found: Option<Stored>, maxBytes: int)
    ensures BuildOf(b, key, found, maxBytes) == LimitTooSmall <==> maxBytes < 512
    ensures BuildOf(b, key, found, maxBytes) == NotFound <==> maxBytes >= 512 && found.None?
  {
  }

  // ---- what a brief exports ----

  /** `line` is `text`, or is cut after `limit` characters and ends in an ellipsis. */
  predicate IsCut(line: string, text: string, limit: Option<nat>) {
    match limit
    case None => line == text
    case Some(n) => line == if |text| > n then text[..n] + "\U{2026}" else text
  }

  /** A sample tells of an event what the event says, but its line is the redacted one, possibly cut. */
  predicate Tells(sample: BriefSample, redact: string -> Redaction, event: EventRecord, limit: Option<nat>) {
    && sample.eventId == event.eventId && sample.eventType == event.eventType && sample.occurredAt == event.occurredAt
    && sample.severity == event.severity && sample.evidenceRef == event.evidenceRef
    && IsCut(sample.line, redact(event.line).text, limit)
  }

  /** The samples tell of the events at these places, in their order. */
  ghost predicate TellsOf(samples: seq<BriefSample>, redact: string -> Redaction, events: seq<EventRecord>, kept: seq<nat>, limit: Option<nat>) {
    && |kept| == |samples|
    && (forall j :: 0 <= j < |kept| ==> kept[j] < |events|)
    && (forall j, k :: 0 <= j < k < |kept| ==> kept[j] < kept[k])
    && (forall j :: 0 <= j < |kept| ==> Tells(samples[j], redact, events[kept[j]], limit))
  }

  lemma CutAgain(line: string, text: string, limit: Option<nat>, shorter: nat)
    requires IsCut(line, text, limit) && (limit.Some? ==> shorter <= limit.value)
    ensures IsCut(CutLine(line, shorter), text, Some(shorter))
  {
    if limit.Some? && |text| > limit.value { assert line[..shorter] == text[..shorter]; }
  }

  lemma CutTells(samples: seq<BriefSample>, redact: string -> Redaction, events: seq<EventRecord>, kept: seq<nat>, limit: Option<nat>, shorter: nat)
    requires TellsOf(samples, redact, events, kept, limit) && (limit.Some? ==> shorter <= limit.value)
    ensures TellsOf(CutLines(samples, shorter), redact, events, kept, Some(shorter))
  {
    forall j | 0 <= j < |kept| ensures Tells(CutLines(samples, shorter)[j], redact, events[kept[j]], Some(shorter)) {
      CutAgain(samples[j].line, redact(events[kept[j]].line).text, limit, shorter);
    }
  }

  lemma {:induction false} CutLadderTells(samples: seq<BriefSample>, redact: string -> Redaction, events: seq<EventRecord>, kept: seq<nat>,
                                          limit: Option<nat>, limits: seq<nat>, i: nat) returns (at: nat)
    requires TellsOf(samples, redact, events, kept, limit) && i < |limits|
    requires forall j :: 0 <= j < |limits| && limit.Some? ==> limits[j] <= limit.value
    requires forall j, k :: 0 <= j < k < |limits| ==> limits[k] <= limits[j]
    ensures at in limits && TellsOf(CutLadder(samples, limits)[i], redact, events, kept, Some(at))
    decreases |limits|
  {
    hide TellsOf, CutLines;
    CutTells(samples, redact, events, kept, limit, limits[0]);
    var cut := CutLines(samples, limits[0]);
    assert CutLadder(samples, limits) == [cut] + CutLadder(cut, limits[1..]);
    if i == 0 {
      at := limits[0];
    } else {
      at := CutLadderTells(cut, redact, events, kept, Some(limits[0]), limits[1..], i - 1);
    }
  }

  lemma PopTells(samples: seq<BriefSample>, redact: string -> Redaction, events: seq<EventRecord>, kept: seq<nat>, limit: Option<nat>)
    returns (left: seq<nat>)
    requires TellsOf(samples, redact, events, kept, limit) && |samples| > 2
    ensures TellsOf(PopMiddle(samples), redact, events, left, limit)
  {
    left := kept[..|kept| / 2] + kept[|kept| / 2 + 1..];
  }

  /** Every rung tells of events in their order, uncut or all cut at one of the limits. */
  lemma {:induction false} LadderTells(samples: seq<BriefSample>, redact: string -> Redaction, events: seq<EventRecord>, kept: seq<nat>, i: nat)
    returns (left: seq<nat>, limit: Option<nat>)
    requires TellsOf(samples, redact, events, kept, None) && i < |Ladder(samples)|
    ensures TellsOf(Ladder(samples)[i], redact, events, left, limit)
    ensures limit.Some? ==> limit.value in LINE_LIMITS
    decreases |samples|
  {
    hide TellsOf, PopMiddle, CutLadder;
    if i == 0 {
      left, limit := kept, None;
    } else if |samples| > 2 {
      var fewer := PopTells(samples, redact, events, kept, None);
      assert Ladder(samples)[i] == Ladder(PopMiddle(samples))[i - 1];
      left, limit := LadderTells(PopMiddle(samples), redact, events, fewer, i - 1);
    } else {
      assert Ladder(samples)[i] == CutLadder(samples, LINE_LIMITS)[i - 1];
      var at := CutLadderTells(samples, redact, events, kept, None, LINE_LIMITS, i - 1);
      left, limit := kept, Some(at);
    }
  }

  lemma AllTold(redact: string -> Redaction, events: seq<EventRecord>)
    ensures TellsOf(AsSamples(redact, events), redact, events, seq(|events|, i => i), None)
  {
  }

  lemma {:induction false} ClassesAreMatches(redact: string -> Redaction, events: seq<EventRecord>, x: string)
    ensures x in Classes(redact, events) <==> exists e :: e in events && x in redact(e.line).matches
  {
    if events != [] {
      var front, last := events[..|events| - 1], events[|events| - 1];
      ClassesAreMatches(redact, front, x);
      assert forall e :: e in events <==> e in front || e == last;
    }
  }

  /**
   Nothing leaves unredacted. The samples of a built brief are stored events in their order, each with its
   id, type, time, severity and evidence, but with the redacted text in place of its line, whole or cut for
   all of them after 256, 128, 64, 32 or no characters; and the listed classes are exactly what the
   redactor matched in the stored samples, in ascending order.
   */
  lemma BriefIsRedacted(b: Builder, key: Key, stored: Stored, maxBytes: int) returns (kept: seq<nat>, limit: Option<nat>)
    ensures var result, events := BuildOf(b, key, Some(stored), maxBytes), stored.samples;
            result.Built? ==>
              var brief := result.brief;
              && brief.key == key
              && TellsOf(brief.samples, b.redact, events, kept, limit)
              && (limit.Some? ==> limit.value in {256, 128, 64, 32, 0})
              && (forall x :: x in brief.redactionClasses <==> exists e :: e in events && x in b.redact(e.line).matches)
              && (forall i, j :: 0 <= i < j < |brief.redactionClasses| ==>
                    AtMost(brief.redactionClasses[i], brief.redactionClasses[j]) && brief.redactionClasses[i] != brief.redactionClasses[j])
  {
    var events := stored.samples;
    var samples, classes := AsSamples(b.redact, events), Classes(b.redact, events);
    var rungs := Ladder(samples);
    var i := FirstFitIsFirst(b, key, stored, classes, maxBytes, rungs);
    SortedListsTheSet(classes);
    forall x ensures x in classes <==> exists e :: e in events && x in b.redact(e.line).matches { ClassesAreMatches(b.redact, events, x); }
    AllTold(b.redact, events);
    kept, limit := [], None;
    hide Ladder, FirstFit, EvidenceRefs, Sorted, FirstUnsafe, Classes, TellsOf, Fits, FitsFirst, AtMost, AsSamples;
    var result := BuildOf(b, key, Some(stored), maxBytes);
    if result.Built? {
      assert result.brief == BriefOf(key, stored, rungs[i], classes);
      kept, limit := LadderTells(samples, b.redact, events, seq(|events|, j => j), i);
    }
  }
}
