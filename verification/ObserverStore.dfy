/**
 Committing observations: each is one transaction over the events, incidents and cursor or state
 tables, and a runner observes all sources of a project in turn, each through the observer of its kind.
 The runner and control tables are in `RunnerService`; no transaction spans both groups of tables.
 */
module ObserverStore {
  import opened Common
  import Incidents
  import FileSource
  import ProcessSource
  import DockerLogs
  import DockerSource
  import GitSource
  import GitHubCISource

  type EventRecord = Incidents.EventRecord

  datatype SourceKey = SourceKey(projectId: string, sourceId: string)

  /** A row of the state table, by the kind of observer that wrote it. */
  datatype SystemState =
    | ProcessState(process: ProcessSource.Stored)
    | DockerState(docker: DockerSource.Stored)
    | GitState(git: GitSource.Stored)
    | CIState(ci: GitHubCISource.Stored)

  /** What an observation leaves behind: the cursor of a file or the state of another source. */
  datatype Memo = Cursor(cursor: FileSource.Cursor) | State(state: SystemState)

  function SequenceOf(s: SystemState): nat {
    match s
    case ProcessState(p) => p.sequence
    case DockerState(d) => d.sequence
    case GitState(g) => g.sequence
    case CIState(c) => c.sequence
  }

  datatype Tables = Tables(events: seq<EventRecord>, cursors: map<SourceKey, FileSource.Cursor>, states: map<SourceKey, SystemState>,
                           incidents: Incidents.Tables)

  const EMPTY := Tables([], map[], map[], Incidents.EMPTY)

  function KeyOf(e: EventRecord): SourceKey { SourceKey(e.projectId, e.sourceId) }

  /** UNIQUE(project_id, run_id, source_id, sequence). */
  predicate Clash(a: EventRecord, b: EventRecord) {
    KeyOf(a) == KeyOf(b) && a.runId == b.runId && a.sequence == b.sequence
  }

  predicate Insertable(rows: seq<EventRecord>, events: seq<EventRecord>) {
    forall i, r :: 0 <= i < |events| && r in rows + events[..i] ==> !Clash(r, events[i])
  }

  /** What a committed observation writes. */
  function Committed(t: Tables, key: SourceKey, events: seq<EventRecord>, candidates: seq<Incidents.Candidate>, memo: Memo): Tables {
    Tables(t.events + events,
           if memo.Cursor? then t.cursors[key := memo.cursor] else t.cursors,
           if memo.Cursor? then t.states else t.states[key := memo.state],
           Incidents.RecordAll(t.incidents, candidates))
  }

  /** SQLite raises at some statement of the transaction, counted from 0, or at none. */
  predicate Survives(crash: Option<nat>, statements: nat) {
    crash.None? || crash.value >= statements
  }

  // ---- the tables in place ----

  /** The tables of observations; the program's one database class also holds those of `RunnerService`. */
  class Database {
    var events: seq<EventRecord>
    var cursors: map<SourceKey, FileSource.Cursor>
    var states: map<SourceKey, SystemState>
    var incidents: Incidents.Tables

    constructor ()
      ensures Contents() == EMPTY
    {
      events, cursors, states, incidents := [], map[], map[], Incidents.EMPTY;
    }

    function Contents(): Tables
      reads this
    {
      Tables(events, cursors, states, incidents)
    }

    /** The statements of a transaction up to the upsert; on failure what was written so far is still there. */
    method InsertAll(batch: seq<EventRecord>, candidates: seq<Incidents.Candidate>, crash: Option<nat>) returns (ok: bool)
      modifies this
      ensures ok <==> Insertable(old(events), batch) && Survives(crash, |batch| + |candidates|)
      ensures ok ==> events == old(events) + batch && incidents == Incidents.RecordAll(old(incidents), candidates)
      ensures cursors == old(cursors) && states == old(states)
    {
      for i := 0 to |batch|
        invariant events == old(events) + batch[..i] && incidents == old(incidents)
        invariant cursors == old(cursors) && states == old(states)
        invariant Survives(crash, i)
        invariant Insertable(old(events), batch[..i])
      {
        assert forall j :: 0 <= j < i ==> batch[..i][..j] == batch[..j];
        if crash == Some(i) { return false; }
        if exists r :: r in events && Clash(r, batch[i]) { return false; }
        assert forall j :: 0 <= j < i ==> batch[..i + 1][..j] == batch[..j];
        assert batch[..i + 1][..i] == batch[..i];
        events := events + [batch[i]];
        assert batch[..i + 1] == batch[..i] + [batch[i]];
      }
      assert batch[..|batch|] == batch;
      for i := 0 to |candidates|
        invariant events == old(events) + batch && incidents == Incidents.RecordAll(old(incidents), candidates[..i])
        invariant cursors == old(cursors) && states == old(states)
        invariant Survives(crash, |batch| + i)
      {
        if crash == Some(|batch| + i) { return false; }
        assert candidates[..i + 1][..i] == candidates[..i];
        incidents := Incidents.Record(incidents, candidates[i]);
      }
      assert candidates[..|candidates|] == candidates;
      ok := true;
    }

    method Rollback(saved: Tables)
      modifies this
      ensures Contents() == saved
    {
      events, cursors, states, incidents := saved.events, saved.cursors, saved.states, saved.incidents;
    }

    /** `append_observation`: a file's events, incidents and cursor, or nothing. */
    method AppendObservation(key: SourceKey, batch: seq<EventRecord>, candidates: seq<Incidents.Candidate>,
                             cursor: FileSource.Cursor, crash: Option<nat>)
      returns (ok: bool)
      modifies this
      ensures ok <==> Insertable(old(events), batch) && Survives(crash, |batch| + |candidates| + 1)
      ensures Contents() == if ok then Committed(old(Contents()), key, batch, candidates, Cursor(cursor)) else old(Contents())
    {
      var saved := Contents();
      ok := InsertAll(batch, candidates, crash);
      if ok && crash == Some(|batch| + |candidates|) { ok := false; }
      if !ok { Rollback(saved); return; }
      cursors := cursors[key := cursor];
    }

    /** `SourceStateStore.append`: a system source's events, incidents and state, or nothing. */
    method AppendState(key: SourceKey, batch: seq<EventRecord>, candidates: seq<Incidents.Candidate>, state: SystemState, crash: Option<nat>)
      returns (ok: bool)
      modifies this
      ensures ok <==> Insertable(old(events), batch) && Survives(crash, |batch| + |candidates| + 1)
      ensures Contents() == if ok then Committed(old(Contents()), key, batch, candidates, State(state)) else old(Contents())
    {
      var saved := Contents();
      ok := InsertAll(batch, candidates, crash);
      if ok && crash == Some(|batch| + |candidates|) { ok := false; }
      if !ok { Rollback(saved); return; }
      states := states[key := state];
    }
  }

  // ---- sources and their observers ----

  datatype Source =
    | File(sourceId: string, decode: FileSource.Decoder)
    | Process(sourceId: string, process: ProcessSource.Config)
    | Docker(sourceId: string, docker: DockerSource.Config)
    | Git(sourceId: string, git: GitSource.Config)
    | GitHubCI(sourceId: string, gitSourceId: string, ci: GitHubCISource.Config)

  predicate ValidSource(source: Source) { source.Docker? ==> DockerSource.ValidConfig(source.docker) }

  /** `_SOURCE_ORDER`. */
  function Rank(source: Source): nat {
    match source
    case File(_, _) => 0
    case Process(_, _) => 1
    case Docker(_, _) => 2
    case Git(_, _) => 3
    case GitHubCI(_, _, _) => 4
  }

  datatype Body =
    | FileEvent(file: FileSource.Payload)
    | ProcessEvent(process: ProcessSource.Body)
    | DockerEvent(docker: DockerSource.Body)
    | GitEvent(git: GitSource.Body)
    | CIEvent(ci: GitHubCISource.Body)

  /** What the world is like at one source's turn; each observer looks at its own part. */
  datatype World = World(
    now: int,
    file: FileSource.View,
    process: ProcessSource.Outcome,
    docker: DockerSource.Outcome,
    dockerLog: Option<seq<Option<DockerLogs.Entry>>>,
    git: GitSource.Outcome,
    ci: GitHubCISource.World)

  /**
   How an observer reads a state that an observer of another kind left under the same source id: in
   whatever way, but with its sequence.
   */
  datatype Misread = Misread(process: ProcessSource.Stored, docker: DockerSource.Stored, git: GitSource.Stored, ci: GitHubCISource.Stored)

  /** The stored form of an event besides its numbering. */
  datatype Text = Text(eventId: string, eventType: string, severity: string, occurredAt: int, line: string, evidenceRef: string)

  /**
   One source's turn: the world it meets, how its events are written down, which of them become incident
   candidates under which fingerprint, and where its transaction fails, if it does. A system source raises
   if its observer is not configured or cannot read what is stored.
   */
  datatype Turn = Turn(answers: bool, world: World, misread: Misread, text: (nat, Body) -> Text,
                       marks: seq<(string, nat)>, crash: Option<nat>)

  function Written(runId: string, key: SourceKey, text: (nat, Body) -> Text, events: seq<Event<Body>>): (records: seq<EventRecord>)
    ensures |records| == |events|
    ensures forall i :: 0 <= i < |events| ==>
              KeyOf(records[i]) == key && records[i].runId == runId && records[i].sequence == events[i].sequence
  {
    seq(|events|, i requires 0 <= i < |events| =>
      var t := text(events[i].sequence, events[i].body);
      Incidents.EventRecord(t.eventId, key.projectId, runId, key.sourceId, events[i].sequence, t.eventType, t.severity, t.occurredAt,
                            t.line, t.evidenceRef))
  }

  /** The rest of a record is its text. */
  lemma WrittenKeepsText(runId: string, key: SourceKey, text: (nat, Body) -> Text, events: seq<Event<Body>>, i: nat)
    requires i < |events|
    ensures var r, t := Written(runId, key, text, events)[i], text(events[i].sequence, events[i].body);
            r.eventId == t.eventId && r.eventType == t.eventType && r.severity == t.severity && r.occurredAt == t.occurredAt
            && r.line == t.line && r.evidenceRef == t.evidenceRef
  {
  }

  /** The candidates are the marked events under their fingerprints. */
  lemma {:induction false} CandidatesAreMarked(events: seq<EventRecord>, marks: seq<(string, nat)>, c: Incidents.Candidate)
    ensures c in Candidates(events, marks) <==> exists m :: m in marks && m.1 < |events| && c == Incidents.Candidate(m.0, events[m.1])
  {
    if marks != [] {
      var front, last := marks[..|marks| - 1], marks[|marks| - 1];
      CandidatesAreMarked(events, front, c);
      assert forall m :: m in marks <==> m in front || m == last;
    }
  }

  function Candidates(events: seq<EventRecord>, marks: seq<(string, nat)>): seq<Incidents.Candidate> {
    if marks == [] then []
    else
      Candidates(events, marks[..|marks| - 1])
      + (var m := marks[|marks| - 1]; if m.1 < |events| then [Incidents.Candidate(m.0, events[m.1])] else [])
  }

  /** What observing a source gives: an exception, or numbered events, candidates among them, and what to remember. */
  datatype Reading =
    | Raises
    | Reads(events: seq<EventRecord>, candidates: seq<Incidents.Candidate>, memo: Memo)

  function Reported(runId: string, key: SourceKey, turn: Turn, events: seq<Event<Body>>, memo: Memo): Reading {
    var records := Written(runId, key, turn.text, events);
    Reads(records, Candidates(records, turn.marks), memo)
  }

  function FileEvents(events: seq<Event<FileSource.Payload>>): (r: seq<Event<Body>>)
    ensures |r| == |events| && forall i :: 0 <= i < |events| ==> r[i] == Event(events[i].sequence, FileEvent(events[i].body))
  {
    seq(|events|, i requires 0 <= i < |events| => Event(events[i].sequence, FileEvent(events[i].body)))
  }

  function ProcessEvents(events: seq<Event<ProcessSource.Body>>): (r: seq<Event<Body>>)
    ensures |r| == |events| && forall i :: 0 <= i < |events| ==> r[i] == Event(events[i].sequence, ProcessEvent(events[i].body))
  {
    seq(|events|, i requires 0 <= i < |events| => Event(events[i].sequence, ProcessEvent(events[i].body)))
  }

  function DockerEvents(events: seq<Event<DockerSource.Body>>): (r: seq<Event<Body>>)
    ensures |r| == |events| && forall i :: 0 <= i < |events| ==> r[i] == Event(events[i].sequence, DockerEvent(events[i].body))
  {
    seq(|events|, i requires 0 <= i < |events| => Event(events[i].sequence, DockerEvent(events[i].body)))
  }

  function GitEvents(events: seq<Event<GitSource.Body>>): (r: seq<Event<Body>>)
    ensures |r| == |events| && forall i :: 0 <= i < |events| ==> r[i] == Event(events[i].sequence, GitEvent(events[i].body))
  {
    seq(|events|, i requires 0 <= i < |events| => Event(events[i].sequence, GitEvent(events[i].body)))
  }

  function CIEvents(events: seq<Event<GitHubCISource.Body>>): (r: seq<Event<Body>>)
    ensures |r| == |events| && forall i :: 0 <= i < |events| ==> r[i] == Event(events[i].sequence, CIEvent(events[i].body))
  {
    seq(|events|, i requires 0 <= i < |events| => Event(events[i].sequence, CIEvent(events[i].body)))
  }

  // ---- what an observer is given ----

  function StateAt(t: Tables, key: SourceKey): Option<SystemState> {
    if key in t.states then Some(t.states[key]) else None
  }

  function AsProcess(s: Option<SystemState>, misread: Misread): Option<ProcessSource.Stored> {
    match s
    case None => None
    case Some(ProcessState(p)) => Some(p)
    case Some(other) => Some(misread.process.(sequence := SequenceOf(other)))
  }

  function AsDocker(s: Option<SystemState>, misread: Misread): Option<DockerSource.Stored> {
    match s
    case None => None
    case Some(DockerState(d)) => Some(d)
    case Some(other) => Some(misread.docker.(sequence := SequenceOf(other)))
  }

  function AsGit(s: Option<SystemState>, misread: Misread): Option<GitSource.Stored> {
    match s
    case None => None
    case Some(GitState(g)) => Some(g)
    case Some(other) => Some(misread.git.(sequence := SequenceOf(other)))
  }

  function AsCI(s: Option<SystemState>, misread: Misread): Option<GitHubCISource.Stored> {
    match s
    case None => None
    case Some(CIState(c)) => Some(c)
    case Some(other) => Some(misread.ci.(sequence := SequenceOf(other)))
  }

  /** What a CI source sees of the state stored under its Git source's id: only Git and CI states say `available`. */
  function GitViewOf(s: Option<SystemState>): GitHubCISource.GitView {
    match s
    case None => GitHubCISource.NoGitState
    case Some(GitState(g)) => GitHubCISource.GitState(g.last.Gives?, if g.last.Gives? then g.last.snapshot.head else None)
    case Some(CIState(c)) => GitHubCISource.GitState(c.state.available == Some(true), c.state.headSha)
    case Some(_) => GitHubCISource.GitState(false, None)
  }

  /** What the observer of a source makes of its turn. */
  ghost function ReadingOf(t: Tables, runId: string, projectId: string, source: Source, turn: Turn): Reading {
    var key, world := SourceKey(projectId, source.sourceId), turn.world;
    if !turn.answers && !source.File? then Raises
    else
      match source
      case File(_, decode) =>
        (match FileSource.Poll(decode, if key in t.cursors then t.cursors[key] else FileSource.UNREAD, world.file)
         case None => Raises
         case Some(batch) => Reported(runId, key, turn, FileEvents(batch.events), Cursor(batch.cursor)))
      case Process(_, config) =>
        var o := ProcessSource.Polled(config, AsProcess(StateAt(t, key), turn.misread), ProcessSource.Input(world.now, world.process));
        Reported(runId, key, turn, ProcessEvents(o.events), State(ProcessState(o.stored)))
      case Docker(_, config) =>
        var o := DockerSource.Polled(config, AsDocker(StateAt(t, key), turn.misread),
                                     DockerSource.Input(world.now, world.docker, world.dockerLog));
        Reported(runId, key, turn, DockerEvents(o.events), State(DockerState(o.stored)))
      case Git(_, config) =>
        var o := GitSource.Poll(config, AsGit(StateAt(t, key), turn.misread), world.now, world.git);
        Reported(runId, key, turn, GitEvents(o.events), State(GitState(o.stored)))
      case GitHubCI(_, gitSourceId, config) =>
        var git := GitViewOf(StateAt(t, SourceKey(projectId, gitSourceId)));
        (match GitHubCISource.Poll(config, true, AsCI(StateAt(t, key), turn.misread), git, world.now, world.ci)
         case None => Raises
         case Some(o) => Reported(runId, key, turn, CIEvents(o.events), State(CIState(o.stored))))
  }

  /** The state of a system source, unless it is one of another kind. */
  predicate OwnState(t: Tables, key: SourceKey, source: Source) {
    key in t.states ==>
      match source
      case File(_, _) => true
      case Process(_, _) => t.states[key].ProcessState?
      case Docker(_, _) => t.states[key].DockerState?
      case Git(_, _) => t.states[key].GitState?
      case GitHubCI(_, _, _) => t.states[key].CIState?
  }

  /** An observer continues from the cursor or the state of its own kind that is stored for its source, and starts afresh without. */
  lemma OwnStateIsGiven(t: Tables, runId: string, projectId: string, source: Source, turn: Turn)
    requires OwnState(t, SourceKey(projectId, source.sourceId), source) && (turn.answers || source.File?)
    ensures var key, world := SourceKey(projectId, source.sourceId), turn.world;
            var reading, stored := ReadingOf(t, runId, projectId, source, turn), key in t.states;
            match source
            case File(_, decode) =>
              var batch := FileSource.Poll(decode, if key in t.cursors then t.cursors[key] else FileSource.UNREAD, world.file);
              reading == if batch.None? then Raises else Reported(runId, key, turn, FileEvents(batch.value.events), Cursor(batch.value.cursor))
            case Process(_, config) =>
              var o := ProcessSource.Polled(config, if stored then Some(t.states[key].process) else None,
                                            ProcessSource.Input(world.now, world.process));
              reading == Reported(runId, key, turn, ProcessEvents(o.events), State(ProcessState(o.stored)))
            case Docker(_, config) =>
              var o := DockerSource.Polled(config, if stored then Some(t.states[key].docker) else None,
                                           DockerSource.Input(world.now, world.docker, world.dockerLog));
              reading == Reported(runId, key, turn, DockerEvents(o.events), State(DockerState(o.stored)))
            case Git(_, config) =>
              var o := GitSource.Poll(config, if stored then Some(t.states[key].git) else None, world.now, world.git);
              reading == Reported(runId, key, turn, GitEvents(o.events), State(GitState(o.stored)))
            case GitHubCI(_, gitSourceId, config) =>
              var o := GitHubCISource.Poll(config, true, if stored then Some(t.states[key].ci) else None,
                                           GitViewOf(StateAt(t, SourceKey(projectId, gitSourceId))), world.now, world.ci);
              reading == if o.None? then Raises else Reported(runId, key, turn, CIEvents(o.value.events), State(CIState(o.value.stored)))
  {
    hide FileSource.Poll, ProcessSource.Polled, DockerSource.Polled, GitSource.Poll, GitHubCISource.Poll, GitViewOf, Reported,
         FileEvents, ProcessEvents, DockerEvents, GitEvents, CIEvents;
  }

  // ---- turns and cycles ----

  datatype Result = Result(tables: Tables, emitted: Option<nat>)

  /** Committing what was read: the tables after it, and the number of events; none if something raised. */
  function Commit(t: Tables, key: SourceKey, reading: Reading, crash: Option<nat>): Result {
    match reading
    case Raises => Result(t, None)
    case Reads(events, candidates, memo) =>
      if Insertable(t.events, events) && Survives(crash, |events| + |candidates| + 1) then
        Result(Committed(t, key, events, candidates, memo), Some(|events|))
      else Result(t, None)
  }

  ghost function TakeTurn(t: Tables, runId: string, projectId: string, source: Source, turn: Turn): Result {
    Commit(t, SourceKey(projectId, source.sourceId), ReadingOf(t, runId, projectId, source, turn), turn.crash)
  }

  /** The sources in turn, up to the first that raises. */
  ghost function Cycle(t: Tables, runId: string, projectId: string, sources: seq<Source>, turns: seq<Turn>): Result
    requires |sources| == |turns|
    decreases |sources|
  {
    if sources == [] then Result(t, Some(0))
    else
      var first := TakeTurn(t, runId, projectId, sources[0], turns[0]);
      if first.emitted.None? then first
      else
        var rest := Cycle(first.tables, runId, projectId, sources[1..], turns[1..]);
        Result(rest.tables, if rest.emitted.None? then None else Some(first.emitted.value + rest.emitted.value))
  }

  function OfKind(sources: seq<Source>, kind: nat): seq<Source> {
    if sources == [] then []
    else
      OfKind(sources[..|sources| - 1], kind)
      + (if Rank(sources[|sources| - 1]) == kind then [sources[|sources| - 1]] else [])
  }

  lemma {:induction false} KindsCount(sources: seq<Source>)
    ensures |OfKind(sources, 0)| + |OfKind(sources, 1)| + |OfKind(sources, 2)| + |OfKind(sources, 3)|
          + |OfKind(sources, 4)| == |sources|
  {
    if sources != [] { KindsCount(sources[..|sources| - 1]); }
  }

  /** `sorted(sources, key=_SOURCE_ORDER)`, a stable sort. */
  function ByKind(sources: seq<Source>): (sorted: seq<Source>)
    ensures |sorted| == |sources|
  {
    KindsCount(sources);
    OfKind(sources, 0) + OfKind(sources, 1) + OfKind(sources, 2) + OfKind(sources, 3) + OfKind(sources, 4)
  }

  predicate AllOf(sources: seq<Source>, kind: nat) {
    forall i :: 0 <= i < |sources| ==> Rank(sources[i]) == kind
  }

  lemma {:induction false} OfKindSelects(sources: seq<Source>, kind: nat)
    ensures AllOf(OfKind(sources, kind), kind)
    ensures forall s :: s in OfKind(sources, kind) <==> s in sources && Rank(s) == kind
  {
    if sources != [] {
      OfKindSelects(sources[..|sources| - 1], kind);
      assert sources == sources[..|sources| - 1] + [sources[|sources| - 1]];
    }
  }

  /** Every source of one rank comes before those of the next; so a CI source is observed after the Git source it depends on. */
  lemma SortAscends(sources: seq<Source>)
    ensures RanksUpTo(ByKind(sources), 4)
  {
    var a, b, c, d, e := OfKind(sources, 0), OfKind(sources, 1), OfKind(sources, 2), OfKind(sources, 3), OfKind(sources, 4);
    hide OfKind, RanksUpTo, AllOf;
    OfKindSelects(sources, 0);
    OfKindSelects(sources, 1);
    OfKindSelects(sources, 2);
    OfKindSelects(sources, 3);
    OfKindSelects(sources, 4);
    RanksOfOneKind(a);
    Ascending(a, b, 1);
    Ascending(a + b, c, 2);
    Ascending(a + b + c, d, 3);
    Ascending(a + b + c + d, e, 4);
  }

  /** In words: files first, then processes, containers, Git and CI. */
  lemma KindsComeInOrder(sources: seq<Source>, i: nat, j: nat)
    requires i < j < |ByKind(sources)|
    ensures var a, b := ByKind(sources)[i], ByKind(sources)[j];
            && (b.File? ==> a.File?)
            && (b.Process? ==> a.File? || a.Process?)
            && (b.Docker? ==> a.File? || a.Process? || a.Docker?)
            && (b.Git? ==> !a.GitHubCI?)
  {
    SortAscends(sources);
    hide ByKind;
    assert Rank(ByKind(sources)[i]) <= Rank(ByKind(sources)[j]);
  }

  /** Sources of one kind keep their order. */
  lemma SortIsStable(sources: seq<Source>, kind: nat)
    requires kind <= 4
    ensures OfKind(ByKind(sources), kind) == OfKind(sources, kind)
  {
    hide OfKind, AllOf;
    OfKindSelects(sources, 0);
    OfKindSelects(sources, 1);
    OfKindSelects(sources, 2);
    OfKindSelects(sources, 3);
    OfKindSelects(sources, 4);
    OfFiveKinds(OfKind(sources, 0), OfKind(sources, 1), OfKind(sources, 2), OfKind(sources, 3), OfKind(sources, 4), kind);
  }

  lemma OfFiveKinds(a: seq<Source>, b: seq<Source>, c: seq<Source>, d: seq<Source>, e: seq<Source>, kind: nat)
    requires AllOf(a, 0) && AllOf(b, 1) && AllOf(c, 2) && AllOf(d, 3) && AllOf(e, 4) && kind <= 4
    ensures OfKind(a + b + c + d + e, kind)
         == if kind == 0 then a else if kind == 1 then b else if kind == 2 then c else if kind == 3 then d else e
  {
    hide *;
    OfKindConcat(a + b + c + d, e, kind);
    OfKindConcat(a + b + c, d, kind);
    OfKindConcat(a + b, c, kind);
    OfKindConcat(a, b, kind);
    OfOneKind(a, 0, kind);
    OfOneKind(b, 1, kind);
    OfOneKind(c, 2, kind);
    OfOneKind(d, 3, kind);
    OfOneKind(e, 4, kind);
  }

  lemma {:induction false} OfKindConcat(a: seq<Source>, b: seq<Source>, kind: nat)
    ensures OfKind(a + b, kind) == OfKind(a, kind) + OfKind(b, kind)
  {
    if b == [] {
      assert a + b == a;
    } else {
      OfKindConcat(a, b[..|b| - 1], kind);
      assert (a + b)[..|a + b| - 1] == a + b[..|b| - 1];
    }
  }

  lemma {:induction false} OfOneKind(a: seq<Source>, own: nat, kind: nat)
    requires AllOf(a, own)
    ensures OfKind(a, kind) == if own == kind then a else []
  {
    if a != [] {
      var front, last := a[..|a| - 1], a[|a| - 1];
      OfOneKind(front, own, kind);
      assert a == front + [last];
    }
  }

  /** Every source is in the sorted list. */
  lemma SortKeepsSources(sources: seq<Source>, s: Source)
    ensures s in ByKind(sources) <==> s in sources
  {
    SortIsStable(sources, Rank(s));
    OfKindSelects(sources, Rank(s));
    OfKindSelects(ByKind(sources), Rank(s));
    hide ByKind, OfKind;
  }

  predicate RanksUpTo(sources: seq<Source>, top: nat) {
    && (forall i, j :: 0 <= i < j < |sources| ==> Rank(sources[i]) <= Rank(sources[j]))
    && (forall i :: 0 <= i < |sources| ==> Rank(sources[i]) <= top)
  }

  lemma RanksOfOneKind(a: seq<Source>)
    requires AllOf(a, 0)
    ensures RanksUpTo(a, 0)
  {
  }

  lemma Ascending(a: seq<Source>, b: seq<Source>, next: nat)
    requires next > 0 && RanksUpTo(a, next - 1) && AllOf(b, next)
    ensures RanksUpTo(a + b, next)
  {
  }

  class ObserverRunner {
    const database: Database
    const runId: string

    constructor (database: Database, runId: string)
      ensures this.database == database && this.runId == runId
    {
      this.database, this.runId := database, runId;
    }

    /** Reads the stored cursor or state and asks the observer of the source's kind. */
    method Read(projectId: string, source: Source, turn: Turn) returns (reading: Reading)
      requires ValidSource(source)
      ensures reading == ReadingOf(database.Contents(), runId, projectId, source, turn)
    {
      hide FileSource.Poll, ProcessSource.Polled, DockerSource.Polled, GitSource.Poll, GitHubCISource.Poll, Reported;
      if !turn.answers && !source.File? { return Raises; }
      var key, world := SourceKey(projectId, source.sourceId), turn.world;
      var state := if key in database.states then Some(database.states[key]) else None;
      match source {
        case File(_, decode) =>
          var reader := new FileSource.FileSourceReader(decode);
          var batch := reader.ReadAvailable(world.file, if key in database.cursors then Some(database.cursors[key]) else None);
          if batch.None? { return Raises; }
          reading := Reported(runId, key, turn, FileEvents(batch.value.events), Cursor(batch.value.cursor));
        case Process(_, config) =>
          var o := ProcessSource.Observe(config, AsProcess(state, turn.misread), ProcessSource.Input(world.now, world.process));
          reading := Reported(runId, key, turn, ProcessEvents(o.events), State(ProcessState(o.stored)));
        case Docker(_, config) =>
          var observer := new DockerSource.Observer(config);
          var o := observer.Observe(AsDocker(state, turn.misread), DockerSource.Input(world.now, world.docker, world.dockerLog));
          reading := Reported(runId, key, turn, DockerEvents(o.events), State(DockerState(o.stored)));
        case Git(_, config) =>
          var o := GitSource.Observe(config, AsGit(state, turn.misread), world.now, world.git);
          reading := Reported(runId, key, turn, GitEvents(o.events), State(GitState(o.stored)));
        case GitHubCI(_, gitSourceId, config) =>
          var gitKey := SourceKey(projectId, gitSourceId);
          var git := GitViewOf(if gitKey in database.states then Some(database.states[gitKey]) else None);
          var observer := new GitHubCISource.Observer(config);
          var o := observer.Observe(AsCI(state, turn.misread), git, world.now, world.ci);
          if o.None? { return Raises; }
          reading := Reported(runId, key, turn, CIEvents(o.value.events), State(CIState(o.value.stored)));
      }
    }

    /** `_observe_file` and `_append_system` for one source. */
    method ObserveSource(projectId: string, source: Source, turn: Turn) returns (emitted: Option<nat>)
      requires ValidSource(source)
      modifies database
      ensures Result(database.Contents(), emitted) == TakeTurn(old(database.Contents()), runId, projectId, source, turn)
    {
      var reading := Read(projectId, source, turn);
      hide ReadingOf;
      if reading.Raises? { return None; }
      var key := SourceKey(projectId, source.sourceId);
      var ok;
      if reading.memo.Cursor? {
        ok := database.AppendObservation(key, reading.events, reading.candidates, reading.memo.cursor, turn.crash);
      } else {
        ok := database.AppendState(key, reading.events, reading.candidates, reading.memo.state, turn.crash);
      }
      if !ok { return None; }
      emitted := Some(|reading.events|);
    }

    /** `observe_once`: nothing unless the controller is active; then every source in order, until one raises. */
    method ObserveOnce(active: bool, projectId: string, sources: seq<Source>, turns: seq<Turn>) returns (emitted: Option<nat>)
      requires |turns| == |sources| && forall s :: s in sources ==> ValidSource(s)
      modifies database
      ensures if active then Result(database.Contents(), emitted) == Cycle(old(database.Contents()), runId, projectId, ByKind(sources), turns)
              else emitted == None && database.Contents() == old(database.Contents())
    {
      hide *;
      if !active { return None; }
      var ordered := ByKind(sources);
      SortKeepsValid(sources);
      var count: nat := 0;
      ghost var goal := Cycle(database.Contents(), runId, projectId, ordered, turns);
      ToGoStart(database.Contents(), runId, projectId, ordered, turns);
      for i := 0 to |ordered|
        invariant ToGo(database.Contents(), count, runId, projectId, ordered, turns, i) == goal
      {
        ToGoStep(database.Contents(), count, runId, projectId, ordered, turns, i);
        var n := ObserveSource(projectId, ordered[i], turns[i]);
        if n.None? { return None; }
        count := count + n.value;
      }
      ToGoEnd(database.Contents(), count, runId, projectId, ordered, turns);
      emitted := Some(count);
    }
  }

  lemma SortKeepsValid(sources: seq<Source>)
    requires forall s :: s in sources ==> ValidSource(s)
    ensures forall i :: 0 <= i < |ByKind(sources)| ==> ValidSource(ByKind(sources)[i])
  {
    hide *;
    forall i | 0 <= i < |ByKind(sources)| ensures ValidSource(ByKind(sources)[i]) { SortKeepsSources(sources, ByKind(sources)[i]); }
  }

  /** The outcome of a cycle that has emitted `count` events and goes on with source `i`. */
  ghost function ToGo(t: Tables, count: nat, runId: string, projectId: string, sources: seq<Source>, turns: seq<Turn>, i: nat): Result
    requires |sources| == |turns| && i <= |sources|
  {
    var rest := Cycle(t, runId, projectId, sources[i..], turns[i..]);
    Result(rest.tables, if rest.emitted.None? then None else Some(count + rest.emitted.value))
  }

  lemma ToGoStart(t: Tables, runId: string, projectId: string, sources: seq<Source>, turns: seq<Turn>)
    requires |sources| == |turns|
    ensures ToGo(t, 0, runId, projectId, sources, turns, 0) == Cycle(t, runId, projectId, sources, turns)
  {
    hide Cycle;
    assert sources[0..] == sources && turns[0..] == turns;
  }

  lemma ToGoStep(t: Tables, count: nat, runId: string, projectId: string, sources: seq<Source>, turns: seq<Turn>, i: nat)
    requires |sources| == |turns| && i < |sources|
    ensures var first := TakeTurn(t, runId, projectId, sources[i], turns[i]);
            ToGo(t, count, runId, projectId, sources, turns, i)
              == if first.emitted.None? then first
                 else ToGo(first.tables, count + first.emitted.value, runId, projectId, sources, turns, i + 1)
  {
    hide TakeTurn;
    assert sources[i..][1..] == sources[i + 1..] && turns[i..][1..] == turns[i + 1..];
  }

  lemma ToGoEnd(t: Tables, count: nat, runId: string, projectId: string, sources: seq<Source>, turns: seq<Turn>)
    requires |sources| == |turns|
    ensures ToGo(t, count, runId, projectId, sources, turns, |sources|) == Result(t, Some(count))
  {
  }

  // ---- the numbering has no gaps ----

  /** The sequences of a source's committed events, in the order of commitment. */
  function Sequences(rows: seq<EventRecord>, key: SourceKey): seq<nat> {
    if rows == [] then []
    else
      Sequences(rows[..|rows| - 1], key) + (if KeyOf(rows[|rows| - 1]) == key then [rows[|rows| - 1].sequence] else [])
  }

  function UpTo(n: nat): (s: seq<nat>)
    ensures |s| == n && forall i :: 0 <= i < n ==> s[i] == i + 1
  {
    seq(n, i => i + 1)
  }

  /** The sequence that the next observation of a file, or of another source, continues from. */
  function StoredSequence(t: Tables, file: bool, key: SourceKey): nat {
    if file then (if key in t.cursors then t.cursors[key].sequence else 0)
    else if key in t.states then SequenceOf(t.states[key]) else 0
  }

  /** The larger of the stored sequences; normally a source has only a cursor or only a state. */
  function Top(t: Tables, key: SourceKey): nat {
    Max(StoredSequence(t, true, key), StoredSequence(t, false, key))
  }

  predicate GaplessAt(t: Tables, key: SourceKey) {
    Sequences(t.events, key) == UpTo(Top(t, key))
  }

  ghost predicate Gapless(t: Tables) {
    forall key :: GaplessAt(t, key)
  }

  lemma {:induction false} SequencesConcat(a: seq<EventRecord>, b: seq<EventRecord>, key: SourceKey)
    ensures Sequences(a + b, key) == Sequences(a, key) + Sequences(b, key)
  {
    if b == [] {
      assert a + b == a;
    } else {
      SequencesConcat(a, b[..|b| - 1], key);
      assert (a + b)[..|a + b| - 1] == a + b[..|b| - 1];
    }
  }

  /** A batch continues the numbering of its source at `from`, under its runner's id. */
  predicate NumberedFrom(events: seq<EventRecord>, runId: string, key: SourceKey, from: nat) {
    forall i :: 0 <= i < |events| ==> KeyOf(events[i]) == key && events[i].runId == runId && events[i].sequence == from + 1 + i
  }

  function MemoSequence(m: Memo): nat { if m.Cursor? then m.cursor.sequence else SequenceOf(m.state) }

  /** What the storage asks of an observer: it numbers on from what is stored, and remembers the last number. */
  predicate Continues(reading: Reading, file: bool, runId: string, key: SourceKey, from: nat) {
    reading.Reads? ==>
      && NumberedFrom(reading.events, runId, key, from)
      && MemoSequence(reading.memo) == from + |reading.events|
      && (reading.memo.Cursor? <==> file)
  }

  lemma WrittenContinues(runId: string, key: SourceKey, turn: Turn, events: seq<Event<Body>>, memo: Memo, from: nat, file: bool)
    requires Consecutive(from, events, MemoSequence(memo)) && (memo.Cursor? <==> file)
    ensures Continues(Reported(runId, key, turn, events, memo), file, runId, key, from)
  {
  }

  /** Every observer does: files, processes, containers, Git and CI. */
  lemma ObserversContinue(t: Tables, runId: string, projectId: string, source: Source, turn: Turn)
    ensures var key := SourceKey(projectId, source.sourceId);
            Continues(ReadingOf(t, runId, projectId, source, turn), source.File?, runId, key, StoredSequence(t, source.File?, key))
  {
    hide Continues, Reported, FileSource.Poll, ProcessSource.Polled, DockerSource.Polled, GitSource.Poll, GitHubCISource.Poll;
    var key, world := SourceKey(projectId, source.sourceId), turn.world;
    var from := StoredSequence(t, source.File?, key);
    if !turn.answers && !source.File? {
      RaisingContinues(source.File?, runId, key, from);
    } else {
      match source
      case File(_, decode) =>
        var c := if key in t.cursors then t.cursors[key] else FileSource.UNREAD;
        var poll := FileSource.Poll(decode, c, world.file);
        if poll.None? {
          RaisingContinues(true, runId, key, from);
        } else {
          FileSource.PollIsConsecutive(decode, c, world.file);
          WrittenContinues(runId, key, turn, FileEvents(poll.value.events), Cursor(poll.value.cursor), from, true);
        }
      case Process(_, config) =>
        var previous, input := AsProcess(StateAt(t, key), turn.misread), ProcessSource.Input(world.now, world.process);
        ProcessSource.PollIsConsecutive(config, previous, input);
        var o := ProcessSource.Polled(config, previous, input);
        WrittenContinues(runId, key, turn, ProcessEvents(o.events), State(ProcessState(o.stored)), from, false);
      case Docker(_, config) =>
        var previous, input := AsDocker(StateAt(t, key), turn.misread), DockerSource.Input(world.now, world.docker, world.dockerLog);
        DockerSource.PollIsConsecutive(config, previous, input);
        var o := DockerSource.Polled(config, previous, input);
        WrittenContinues(runId, key, turn, DockerEvents(o.events), State(DockerState(o.stored)), from, false);
      case Git(_, config) =>
        var previous := AsGit(StateAt(t, key), turn.misread);
        GitSource.PollIsConsecutive(config, previous, world.now, world.git);
        var o := GitSource.Poll(config, previous, world.now, world.git);
        WrittenContinues(runId, key, turn, GitEvents(o.events), State(GitState(o.stored)), from, false);
      case GitHubCI(_, gitSourceId, config) =>
        var previous, git := AsCI(StateAt(t, key), turn.misread), GitViewOf(StateAt(t, SourceKey(projectId, gitSourceId)));
        GitHubCISource.PollIsConsecutive(config, true, previous, git, world.now, world.ci);
        var o := GitHubCISource.Poll(config, true, previous, git, world.now, world.ci);
        if o.None? {
          RaisingContinues(false, runId, key, from);
        } else {
          WrittenContinues(runId, key, turn, CIEvents(o.value.events), State(CIState(o.value.stored)), from, false);
        }
    }
  }

  lemma RaisingContinues(file: bool, runId: string, key: SourceKey, from: nat)
    ensures Continues(Raises, file, runId, key, from)
  {
  }

  lemma {:induction false} SequencesOfNumbered(events: seq<EventRecord>, runId: string, key: SourceKey, from: nat, other: SourceKey)
    requires NumberedFrom(events, runId, key, from)
    ensures var s := Sequences(events, other);
            if other == key then |s| == |events| && forall i :: 0 <= i < |s| ==> s[i] == from + 1 + i else s == []
  {
    if events != [] {
      SequencesOfNumbered(events[..|events| - 1], runId, key, from, other);
    }
  }

  lemma {:induction false} SequencesComeFromRows(rows: seq<EventRecord>, key: SourceKey, n: nat)
    requires n in Sequences(rows, key)
    ensures exists r :: r in rows && KeyOf(r) == key && r.sequence == n
  {
    var last := rows[|rows| - 1];
    if KeyOf(last) == key && last.sequence == n {
      assert last in rows;
    } else {
      SequencesComeFromRows(rows[..|rows| - 1], key, n);
    }
  }

  /** All events of the source come from one runner. */
  predicate FromRun(t: Tables, key: SourceKey, runId: string) {
    forall r :: r in t.events && KeyOf(r) == key ==> r.runId == runId
  }

  /** Committing keeps the numbering if the observer continued from the top, or else says nothing. */
  lemma CommitFromTop(t: Tables, runId: string, file: bool, key: SourceKey, reading: Reading, other: SourceKey)
    requires GaplessAt(t, other) && reading.Reads? && Continues(reading, file, runId, key, StoredSequence(t, file, key))
    requires StoredSequence(t, file, key) == Top(t, key) || reading.events == []
    ensures GaplessAt(Committed(t, key, reading.events, reading.candidates, reading.memo), other)
  {
    var from, events := StoredSequence(t, file, key), reading.events;
    SequencesConcat(t.events, events, other);
    SequencesOfNumbered(events, runId, key, from, other);
    TopAfterCommit(t, file, key, reading, other);
    if other == key && events != [] {
      UpToExtends(from, Sequences(events, other));
    } else {
      NothingAdded(Sequences(t.events, other), Sequences(events, other));
    }
    hide Sequences, NumberedFrom, UpTo, Top;
  }

  lemma UpToExtends(from: nat, s: seq<nat>)
    requires forall i :: 0 <= i < |s| ==> s[i] == from + 1 + i
    ensures UpTo(from) + s == UpTo(from + |s|)
  {
  }

  lemma NothingAdded(a: seq<nat>, b: seq<nat>)
    requires b == []
    ensures a + b == a
  {
  }

  lemma TopAfterCommit(t: Tables, file: bool, key: SourceKey, reading: Reading, other: SourceKey)
    requires reading.Reads? && (reading.memo.Cursor? <==> file)
    requires MemoSequence(reading.memo) == StoredSequence(t, file, key) + |reading.events|
    requires StoredSequence(t, file, key) == Top(t, key) || reading.events == []
    ensures Top(Committed(t, key, reading.events, reading.candidates, reading.memo), other)
         == if other == key && reading.events != [] then MemoSequence(reading.memo) else Top(t, other)
  {
  }

  /** Below the top a runner's next number is taken, so its insert fails. */
  lemma BelowTopClashes(t: Tables, runId: string, file: bool, key: SourceKey, events: seq<EventRecord>)
    requires GaplessAt(t, key) && FromRun(t, key, runId) && NumberedFrom(events, runId, key, StoredSequence(t, file, key))
    requires StoredSequence(t, file, key) < Top(t, key) && events != []
    ensures !Insertable(t.events, events)
  {
    var n := StoredSequence(t, file, key) + 1;
    assert UpTo(Top(t, key))[n - 1] == n;
    SequencesComeFromRows(t.events, key, n);
    var r :| r in t.events && KeyOf(r) == key && r.sequence == n;
    assert r in t.events + events[..0] && Clash(r, events[0]);
  }

  /** The source's turn may be taken by this runner: nobody else has written its events, or only one table knows it. */
  ghost predicate MayWrite(t: Tables, runId: string, file: bool, key: SourceKey) {
    FromRun(t, key, runId) || (if file then key !in t.states else key !in t.cursors)
  }

  lemma TurnKeepsGapless(t: Tables, runId: string, projectId: string, source: Source, turn: Turn)
    requires Gapless(t) && MayWrite(t, runId, source.File?, SourceKey(projectId, source.sourceId))
    ensures Gapless(TakeTurn(t, runId, projectId, source, turn).tables)
  {
    var key, file := SourceKey(projectId, source.sourceId), source.File?;
    var reading := ReadingOf(t, runId, projectId, source, turn);
    ObserversContinue(t, runId, projectId, source, turn);
    hide ReadingOf;
    if TakeTurn(t, runId, projectId, source, turn).emitted.Some? {
      assert GaplessAt(t, key);
      if StoredSequence(t, file, key) < Top(t, key) && reading.events != [] {
        BelowTopClashes(t, runId, file, key, reading.events);
      }
      hide Insertable, FromRun, GaplessAt;
      forall other ensures GaplessAt(TakeTurn(t, runId, projectId, source, turn).tables, other) {
        CommitFromTop(t, runId, file, key, reading, other);
      }
    }
  }

  /**
   What the numbering hangs on: a turn that commits keeps it exactly when it says nothing or its
   observer continued from the top. Otherwise, which takes an id shared by a file and a system source
   and a runner new to it, numbers repeat.
   */
  lemma NumberingHoldsIff(t: Tables, runId: string, projectId: string, source: Source, turn: Turn)
    requires Gapless(t) && TakeTurn(t, runId, projectId, source, turn).emitted.Some?
    ensures var key := SourceKey(projectId, source.sourceId);
            var result := TakeTurn(t, runId, projectId, source, turn);
            Gapless(result.tables) <==> result.emitted == Some(0) || StoredSequence(t, source.File?, key) == Top(t, key)
  {
    hide Candidates, Sequences, UpTo, Clash;
    var key, file := SourceKey(projectId, source.sourceId), source.File?;
    var reading := ReadingOf(t, runId, projectId, source, turn);
    ObserversContinue(t, runId, projectId, source, turn);
    hide ReadingOf;
    var result := TakeTurn(t, runId, projectId, source, turn);
    assert GaplessAt(t, key);
    if StoredSequence(t, file, key) == Top(t, key) || reading.events == [] {
      hide Insertable, GaplessAt, Continues;
      forall other ensures GaplessAt(result.tables, other) {
        CommitFromTop(t, runId, file, key, reading, other);
      }
    } else {
      CommitBelowTop(t, runId, file, key, reading);
      hide Insertable, GaplessAt, Continues;
      assert !GaplessAt(result.tables, key);
    }
  }

  lemma CommitBelowTop(t: Tables, runId: string, file: bool, key: SourceKey, reading: Reading)
    requires GaplessAt(t, key) && reading.Reads? && Continues(reading, file, runId, key, StoredSequence(t, file, key))
    requires StoredSequence(t, file, key) < Top(t, key) && reading.events != []
    ensures !GaplessAt(Committed(t, key, reading.events, reading.candidates, reading.memo), key)
  {
    var from, events := StoredSequence(t, file, key), reading.events;
    SequencesConcat(t.events, events, key);
    SequencesOfNumbered(events, runId, key, from, key);
    hide Sequences, NumberedFrom;
    var next := Committed(t, key, events, reading.candidates, reading.memo);
    assert |Sequences(next.events, key)| == Top(t, key) + |events|;
    assert Top(next, key) == Max(Top(t, key), from + |events|) < Top(t, key) + |events|;
  }

  lemma TurnWritesOwnRows(t: Tables, runId: string, projectId: string, source: Source, turn: Turn)
    ensures var t' := TakeTurn(t, runId, projectId, source, turn).tables;
            && (forall key :: FromRun(t, key, runId) ==> FromRun(t', key, runId))
            && (forall key :: key in t'.cursors ==> key in t.cursors || (source.File? && key == SourceKey(projectId, source.sourceId)))
            && (forall key :: key in t'.states ==> key in t.states || (!source.File? && key == SourceKey(projectId, source.sourceId)))
  {
    ObserversContinue(t, runId, projectId, source, turn);
    hide ReadingOf;
  }

  // ---- runs ----

  /** A call of `observe_once` by some runner while the controller is active. */
  datatype Call = Call(runId: string, projectId: string, sources: seq<Source>, turns: seq<Turn>)

  predicate ValidCall(c: Call) {
    |c.turns| == |c.sources|
  }

  ghost function After(t: Tables, calls: seq<Call>): Tables
    requires forall c :: c in calls ==> ValidCall(c)
  {
    if calls == [] then t
    else
      var last := calls[|calls| - 1];
      assert ValidCall(last);
      Cycle(After(t, calls[..|calls| - 1]), last.runId, last.projectId, ByKind(last.sources), last.turns).tables
  }

  lemma {:induction false} CycleByOneRun(t: Tables, runId: string, projectId: string, sources: seq<Source>, turns: seq<Turn>)
    requires |sources| == |turns|
    requires Gapless(t) && forall key :: FromRun(t, key, runId)
    ensures var t' := Cycle(t, runId, projectId, sources, turns).tables;
            Gapless(t') && forall key :: FromRun(t', key, runId)
    decreases |sources|
  {
    if sources != [] {
      TurnKeepsGapless(t, runId, projectId, sources[0], turns[0]);
      TurnWritesOwnRows(t, runId, projectId, sources[0], turns[0]);
      hide TakeTurn, Gapless, FromRun;
      CycleByOneRun(TakeTurn(t, runId, projectId, sources[0], turns[0]).tables, runId, projectId, sources[1..], turns[1..]);
    }
  }

  /**
   One runner on a fresh database: whatever raises or rolls back on the way, and even if a file and
   a system source share an id, the committed events of every source are numbered 1, 2, 3 up to the
   stored sequence, in order.
   */
  lemma {:induction false} OneRunnerIsGapless(runId: string, calls: seq<Call>)
    requires forall c :: c in calls ==> ValidCall(c) && c.runId == runId
    ensures Gapless(After(EMPTY, calls)) && forall key :: FromRun(After(EMPTY, calls), key, runId)
  {
    if calls == [] {
      forall key ensures GaplessAt(EMPTY, key) { }
    } else {
      var front, last := calls[..|calls| - 1], calls[|calls| - 1];
      OneRunnerIsGapless(runId, front);
      CycleByOneRun(After(EMPTY, front), runId, last.projectId, ByKind(last.sources), last.turns);
    }
  }

  /** Only files have cursors and only system sources have states. */
  ghost predicate Separate(t: Tables, files: set<SourceKey>) {
    (forall key :: key in t.cursors ==> key in files) && (forall key :: key in t.states ==> key !in files)
  }

  predicate SourceFits(projectId: string, source: Source, files: set<SourceKey>) {
    source.File? <==> SourceKey(projectId, source.sourceId) in files
  }

  lemma {:induction false} CycleOnSeparateIds(t: Tables, runId: string, projectId: string, sources: seq<Source>, turns: seq<Turn>,
                                              files: set<SourceKey>)
    requires |sources| == |turns| && forall s :: s in sources ==> SourceFits(projectId, s, files)
    requires Gapless(t) && Separate(t, files)
    ensures var t' := Cycle(t, runId, projectId, sources, turns).tables;
            Gapless(t') && Separate(t', files)
    decreases |sources|
  {
    if sources != [] {
      assert SourceFits(projectId, sources[0], files);
      TurnKeepsGapless(t, runId, projectId, sources[0], turns[0]);
      TurnWritesOwnRows(t, runId, projectId, sources[0], turns[0]);
      var next := TakeTurn(t, runId, projectId, sources[0], turns[0]).tables;
      hide TakeTurn, Gapless, FromRun;
      assert Separate(next, files);
      hide Separate;
      CycleOnSeparateIds(next, runId, projectId, sources[1..], turns[1..], files);
    }
  }

  /** Any number of runners, one after the other, keep the numbering if no file shares its id with a system source. */
  lemma {:induction false} RestartsKeepNumbering(calls: seq<Call>, files: set<SourceKey>)
    requires forall c :: c in calls ==> ValidCall(c) && forall s :: s in c.sources ==> SourceFits(c.projectId, s, files)
    ensures Gapless(After(EMPTY, calls)) && Separate(After(EMPTY, calls), files)
  {
    if calls == [] {
      forall key ensures GaplessAt(EMPTY, key) { }
    } else {
      var front, last := calls[..|calls| - 1], calls[|calls| - 1];
      RestartsKeepNumbering(front, files);
      forall s | s in ByKind(last.sources) ensures s in last.sources { SortKeepsSources(last.sources, s); }
      CycleOnSeparateIds(After(EMPTY, front), last.runId, last.projectId, ByKind(last.sources), last.turns, files);
    }
  }

  /** A turn whose observer raises, whose numbers are taken or whose transaction fails at any statement leaves no trace. */
  lemma FailedTurnLeavesNothing(t: Tables, runId: string, projectId: string, source: Source, turn: Turn)
    ensures var result, reading := TakeTurn(t, runId, projectId, source, turn), ReadingOf(t, runId, projectId, source, turn);
            && (result.emitted == None <==>
                  || reading.Raises?
                  || (exists i, r :: 0 <= i < |reading.events| && r in t.events + reading.events[..i] && Clash(r, reading.events[i]))
                  || (turn.crash.Some? && turn.crash.value < |reading.events| + |reading.candidates| + 1))
            && (result.emitted == None ==> result.tables == t)
  {
    hide ReadingOf;
  }

  // ---- nothing is lost ----

  /** The readings of a cycle that were committed. */
  ghost function Kept(t: Tables, runId: string, projectId: string, sources: seq<Source>, turns: seq<Turn>): seq<Reading>
    requires |sources| == |turns|
    decreases |sources|
  {
    if sources == [] then []
    else
      var first := TakeTurn(t, runId, projectId, sources[0], turns[0]);
      if first.emitted.None? then []
      else [ReadingOf(t, runId, projectId, sources[0], turns[0])] + Kept(first.tables, runId, projectId, sources[1..], turns[1..])
  }

  ghost function KeptOver(t: Tables, calls: seq<Call>): seq<Reading>
    requires forall c :: c in calls ==> ValidCall(c)
  {
    if calls == [] then []
    else
      var front, last := calls[..|calls| - 1], calls[|calls| - 1];
      assert ValidCall(last);
      KeptOver(t, front) + Kept(After(t, front), last.runId, last.projectId, ByKind(last.sources), last.turns)
  }

  function EventsIn(readings: seq<Reading>): seq<EventRecord>
    decreases |readings|
  {
    if readings == [] then [] else (if readings[0].Reads? then readings[0].events else []) + EventsIn(readings[1..])
  }

  function CandidatesIn(readings: seq<Reading>): seq<Incidents.Candidate>
    decreases |readings|
  {
    if readings == [] then [] else (if readings[0].Reads? then readings[0].candidates else []) + CandidatesIn(readings[1..])
  }

  lemma {:induction false} InConcat(a: seq<Reading>, b: seq<Reading>)
    ensures EventsIn(a + b) == EventsIn(a) + EventsIn(b) && CandidatesIn(a + b) == CandidatesIn(a) + CandidatesIn(b)
    decreases |a|
  {
    if a == [] {
      assert a + b == b;
    } else {
      assert (a + b)[0] == a[0] && (a + b)[1..] == a[1..] + b;
      InConcat(a[1..], b);
    }
  }

  /** The tables `t1` hold what `t` held and what these readings say, in this order. */
  ghost predicate Grown(t: Tables, t1: Tables, readings: seq<Reading>) {
    t1.events == t.events + EventsIn(readings) && t1.incidents == Incidents.RecordAll(t.incidents, CandidatesIn(readings))
  }

  lemma TurnGrows(t: Tables, runId: string, projectId: string, source: Source, turn: Turn)
    ensures var result, reading := TakeTurn(t, runId, projectId, source, turn), ReadingOf(t, runId, projectId, source, turn);
            if result.emitted.None? then result.tables == t else reading.Reads? && Grown(t, result.tables, [reading])
  {
    hide ReadingOf;
    var reading := ReadingOf(t, runId, projectId, source, turn);
    if reading.Reads? {
      assert [reading][1..] == [] && reading.events + [] == reading.events && reading.candidates + [] == reading.candidates;
      assert EventsIn([]) == [] && CandidatesIn([]) == [];
      assert EventsIn([reading]) == reading.events && CandidatesIn([reading]) == reading.candidates;
    }
  }

  lemma GrownTwice(t: Tables, t1: Tables, t2: Tables, a: seq<Reading>, b: seq<Reading>)
    requires Grown(t, t1, a) && Grown(t1, t2, b)
    ensures Grown(t, t2, a + b)
  {
    InConcat(a, b);
    Incidents.RecordAllConcat(t.incidents, CandidatesIn(a), CandidatesIn(b));
    hide EventsIn, CandidatesIn;
    assert (t.events + EventsIn(a)) + EventsIn(b) == t.events + (EventsIn(a) + EventsIn(b));
  }

  lemma NotGrown(t: Tables)
    ensures Grown(t, t, [])
  {
    assert t.events + [] == t.events;
  }

  lemma {:induction false} CycleGrows(t: Tables, runId: string, projectId: string, sources: seq<Source>, turns: seq<Turn>)
    requires |sources| == |turns|
    ensures Grown(t, Cycle(t, runId, projectId, sources, turns).tables, Kept(t, runId, projectId, sources, turns))
    decreases |sources|
  {
    hide TakeTurn, ReadingOf, Grown;
    NotGrown(t);
    if sources != [] {
      TurnGrows(t, runId, projectId, sources[0], turns[0]);
      var first := TakeTurn(t, runId, projectId, sources[0], turns[0]);
      if first.emitted.Some? {
        CycleGrows(first.tables, runId, projectId, sources[1..], turns[1..]);
        GrownTwice(t, first.tables, Cycle(t, runId, projectId, sources, turns).tables,
                   [ReadingOf(t, runId, projectId, sources[0], turns[0])], Kept(first.tables, runId, projectId, sources[1..], turns[1..]));
      }
    }
  }

  lemma {:induction false} CallsGrow(t: Tables, calls: seq<Call>)
    requires forall c :: c in calls ==> ValidCall(c)
    ensures Grown(t, After(t, calls), KeptOver(t, calls))
  {
    hide Cycle, Kept, Grown, ByKind;
    NotGrown(t);
    if calls != [] {
      var front, last := calls[..|calls| - 1], calls[|calls| - 1];
      assert ValidCall(last);
      CallsGrow(t, front);
      CycleGrows(After(t, front), last.runId, last.projectId, ByKind(last.sources), last.turns);
      GrownTwice(t, After(t, front), After(t, calls), KeptOver(t, front),
                 Kept(After(t, front), last.runId, last.projectId, ByKind(last.sources), last.turns));
    }
  }

  /**
   Nothing is lost and nothing is made up. After any calls of any runners on a new database, whatever
   raised or failed on the way, the event table holds the events of the committed readings, in order, and
   the incidents are those of their candidates; so the occurrences of all incidents add up to these.
   */
  lemma NothingIsLost(calls: seq<Call>)
    requires forall c :: c in calls ==> ValidCall(c)
    ensures var t, kept := After(EMPTY, calls), KeptOver(EMPTY, calls);
            && t.events == EventsIn(kept)
            && t.incidents == Incidents.RecordAll(Incidents.EMPTY, CandidatesIn(kept))
            && Incidents.Total(t.incidents.incidents) == |CandidatesIn(kept)|
  {
    CallsGrow(EMPTY, calls);
    hide After, KeptOver, EventsIn, CandidatesIn;
    Incidents.CountsAddUp(CandidatesIn(KeptOver(EMPTY, calls)));
    assert [] + EventsIn(KeptOver(EMPTY, calls)) == EventsIn(KeptOver(EMPTY, calls));
  }

  // ---- a CI source and its Git source ----

  /** The head that the stored state of a Git source gives. */
  function StoredHead(t: Tables, key: SourceKey): Option<string> {
    if key !in t.states || !t.states[key].GitState? then None
    else
      var g := t.states[key].git;
      if g.last.Gives? && g.last.snapshot.head.Some? && |g.last.snapshot.head.value| == 40 then g.last.snapshot.head else None
  }

  /**
   A CI source watches the head that is stored for its Git source and no other: with none it says at most
   one thing and remembers that it is blocked; with one, whenever no backoff runs, it asks for that head.
   */
  lemma CIWatchesItsGit(t: Tables, runId: string, projectId: string, id: string, gitId: string, config: GitHubCISource.Config, turn: Turn)
    requires SourceKey(projectId, gitId) in t.states ==> !t.states[SourceKey(projectId, gitId)].CIState?
    ensures var head := StoredHead(t, SourceKey(projectId, gitId));
            var reading := ReadingOf(t, runId, projectId, GitHubCI(id, gitId, config), turn);
            reading.Reads? ==>
              && reading.memo.State? && reading.memo.state.CIState?
              && (var s := reading.memo.state.ci.state;
                  && (head.None? ==> s.available == Some(false) && s.blocked && |reading.events| <= 1)
                  && (head.Some? && !BacksOff(AsCI(StateAt(t, SourceKey(projectId, id)), turn.misread), turn.world.now) ==> s.headSha == head))
  {
    var key := SourceKey(projectId, id);
    var git := GitViewOf(StateAt(t, SourceKey(projectId, gitId)));
    var previous := AsCI(StateAt(t, key), turn.misread);
    GitHeadIsStored(t, SourceKey(projectId, gitId));
    if GitHubCISource.Poll(config, true, previous, git, turn.world.now, turn.world.ci).Some? {
      GitHubCISource.PollRemembers(config, true, previous, git, turn.world.now, turn.world.ci);
      GitHubCISource.SaysOf(config, true, previous, git, turn.world.now, turn.world.ci);
      HeadOfReading(config, previous, git, turn.world.ci);
    }
    hide GitHubCISource.Poll, GitHubCISource.ReadingOf, GitHubCISource.Reported, GitHubCISource.CheckIncidents, GitViewOf, Reported, AsCI, StateAt;
  }

  predicate BacksOff(previous: Option<GitHubCISource.Stored>, now: int) {
    previous.Some? && previous.value.state.backoffUntil.Some? && now < previous.value.state.backoffUntil.value
  }

  lemma GitHeadIsStored(t: Tables, key: SourceKey)
    requires key in t.states ==> !t.states[key].CIState?
    ensures var git := GitViewOf(StateAt(t, key));
            && (GitHubCISource.Usable(git) <==> StoredHead(t, key).Some?)
            && (GitHubCISource.Usable(git) ==> git.headSha == StoredHead(t, key))
  {
  }

  lemma HeadOfReading(config: GitHubCISource.Config, previous: Option<GitHubCISource.Stored>, git: GitHubCISource.GitView, world: GitHubCISource.World)
    ensures var read := GitHubCISource.ReadingOf(config, true, previous, git, world);
            read.Some? ==> Some(read.value.snapshot.headSha) == git.headSha
  {
  }

  // ---- an id shared by a file and another source ----

  /**
   The history that fails: a runner reports a missing log file, and after a restart another runner reports
   an unavailable repository under the same source id. Both events are number 1.
   */
  lemma SharedIdRepeatsAfterRestart(runA: string, runB: string, projectId: string, id: string, decode: FileSource.Decoder,
                                    config: GitSource.Config, a: Turn, b: Turn, errorKind: string)
    requires runA != runB
    requires a.marks == [] && a.crash == None && a.world.file == FileSource.Missing
    requires b.answers && b.marks == [] && b.crash == None && b.world.git == GitSource.Fails(errorKind)
    ensures var calls := [Call(runA, projectId, [File(id, decode)], [a]), Call(runB, projectId, [Git(id, config)], [b])];
            && Sequences(After(EMPTY, calls).events, SourceKey(projectId, id)) == [1, 1]
            && !Gapless(After(EMPTY, calls))
  {
    var key := SourceKey(projectId, id);
    var one, two := Call(runA, projectId, [File(id, decode)], [a]), Call(runB, projectId, [Git(id, config)], [b]);
    OneSourceCycle(EMPTY, runA, projectId, File(id, decode), a);
    var t1 := TakeTurn(EMPTY, runA, projectId, File(id, decode), a).tables;
    MissingFileIsReported(runA, projectId, id, decode, a);
    OneSourceCycle(t1, runB, projectId, Git(id, config), b);
    var t2 := TakeTurn(t1, runB, projectId, Git(id, config), b).tables;
    UnavailableGitIsReported(t1, runA, runB, projectId, id, config, b, errorKind);
    AfterTwo(one, two);
    hide *;
    FirstTwice(t2, key);
  }

  lemma FirstTwice(t: Tables, key: SourceKey)
    requires |t.events| == 2 && KeyOf(t.events[0]) == key && t.events[0].sequence == 1
    requires KeyOf(t.events[1]) == key && t.events[1].sequence == 1
    ensures Sequences(t.events, key) == [1, 1] && !Gapless(t)
  {
    hide Top;
    var rows := t.events;
    assert rows[..1][..0] == [] && rows[..1][0] == rows[0];
    assert Sequences(rows[..1], key) == [1];
    assert Sequences(rows, key)[1] == 1;
    var top := Top(t, key);
    assert top == 2 ==> UpTo(top)[1] == 2;
    assert !GaplessAt(t, key);
  }

  lemma AfterTwo(one: Call, two: Call)
    requires ValidCall(one) && ValidCall(two)
    ensures var t1 := Cycle(EMPTY, one.runId, one.projectId, ByKind(one.sources), one.turns).tables;
            After(EMPTY, [one, two]) == Cycle(t1, two.runId, two.projectId, ByKind(two.sources), two.turns).tables
  {
    hide Cycle, ByKind;
    assert [one, two][..1] == [one] && [one][..0] == [];
    assert After(EMPTY, [one]) == Cycle(EMPTY, one.runId, one.projectId, ByKind(one.sources), one.turns).tables;
  }

  lemma OneSourceCycle(t: Tables, runId: string, projectId: string, source: Source, turn: Turn)
    ensures ByKind([source]) == [source]
    ensures Cycle(t, runId, projectId, [source], [turn]).tables == TakeTurn(t, runId, projectId, source, turn).tables
  {
    assert [source][..0] == [] && [source][1..] == [] && [turn][1..] == [];
    hide TakeTurn;
  }

  lemma MissingFileIsReported(runId: string, projectId: string, id: string, decode: FileSource.Decoder, turn: Turn)
    requires turn.marks == [] && turn.crash == None && turn.world.file == FileSource.Missing
    ensures var t := TakeTurn(EMPTY, runId, projectId, File(id, decode), turn).tables;
            |t.events| == 1 && KeyOf(t.events[0]) == SourceKey(projectId, id) && t.events[0].sequence == 1 && t.events[0].runId == runId
            && t.states == map[]
  {
  }

  lemma UnavailableGitIsReported(t: Tables, runA: string, runB: string, projectId: string, id: string, config: GitSource.Config, turn: Turn,
                                 errorKind: string)
    requires runA != runB && |t.events| == 1 && t.events[0].runId == runA && t.states == map[]
    requires turn.answers && turn.marks == [] && turn.crash == None && turn.world.git == GitSource.Fails(errorKind)
    ensures var t' := TakeTurn(t, runB, projectId, Git(id, config), turn).tables;
            |t'.events| == 2 && t'.events[0] == t.events[0]
            && KeyOf(t'.events[1]) == SourceKey(projectId, id) && t'.events[1].sequence == 1
  {
  }
}
