/** Reducing container snapshots and logs to events: `DockerSourceObserver.observe` as a method and as a function. */
module DockerSource {
  import opened Common
  import opened Pacing
  import opened Hysteresis
  import opened DockerLogs

  datatype DockerSnapshot = DockerSnapshot(
    containerId: string, name: string, image: string, state: string, status: string, health: Option<string>,
    restartCount: nat, exitCode: int, oomKilled: bool, startedAt: Option<string>, finishedAt: Option<string>,
    memoryBytes: Option<nat>)

  datatype ErrorKind = SelectorAmbiguous | ProviderUnavailable | ContainerMissing | InspectUnavailable

  /** What looking the container up and inspecting it gives. */
  datatype Outcome = Absent(error: ErrorKind) | Found(snapshot: DockerSnapshot)

  datatype Presence = Unavailable(error: ErrorKind) | Available(snapshot: DockerSnapshot, memoryHigh: bool, logCursor: LogCursor)

  datatype Stored = Stored(sequence: nat, presence: Presence, heartbeatAt: int)

  datatype Config = Config(heartbeatSeconds: nat, memoryWarning: Option<nat>, includeLogs: bool, logLimit: nat,
                           digest: Digest, marksError: string -> bool)

  predicate ValidConfig(config: Config) {
    config.logLimit >= 1 && (config.memoryWarning.Some? ==> config.memoryWarning.value > 0)
  }

  datatype Body =
    | NotThere(kind: ErrorKind)
    | ContainerAvailable(containerId: string, name: string, image: string)
    | ContainerRestarted(previousId: string, containerId: string, previousRestarts: nat, restarts: nat)
    | StateChanged(from: string, to: string)
    | HealthChanged(was: Option<string>, current: Option<string>)
    | ContainerExited(exitCode: int)
    | OomKilled(exitCode: int)
    | MemoryThreshold(bytes: Option<nat>)
    | MemoryRecovered(bytes: Option<nat>)
    | LogLine(containerId: string, entry: Entry)
    | LogsUnavailable(containerId: string)
    | Heartbeat(state: string, health: Option<string>, bytes: Option<nat>)

  datatype Observation = Observation(events: seq<Event<Body>>, stored: Stored, incidents: seq<Event<Body>>)

  /** What one poll meets: the container, and what the log endpoint answers if it is asked. */
  datatype Input = Input(now: int, outcome: Outcome, response: Option<seq<Option<Entry>>>)

  // ---- the specification of one poll ----

  function OneIf(condition: bool, body: Body): seq<Body> { if condition then [body] else [] }

  function SequenceIn(previous: Option<Stored>): nat { if previous.Some? then previous.value.sequence else 0 }

  function AvailableIn(previous: Option<Stored>): Option<DockerSnapshot> {
    if previous.Some? && previous.value.presence.Available? then Some(previous.value.presence.snapshot) else None
  }

  function MemoryHighIn(previous: Option<Stored>): bool {
    previous.Some? && previous.value.presence.Available? && previous.value.presence.memoryHigh
  }

  function Reals(n: Option<nat>): Option<real> {
    if n.Some? then Some(n.value as real) else None
  }

  function MemoryHigh(config: Config, snapshot: DockerSnapshot, before: bool): bool {
    High(Reals(config.memoryWarning), Reals(snapshot.memoryBytes), before)
  }

  /** What changed from the last available snapshot, if there was one. */
  function Lifecycle(prior: Option<DockerSnapshot>, s: DockerSnapshot): seq<Body> {
    Arrival(prior, s) + Changes(prior, s) + Ends(prior, s)
  }

  predicate Same(prior: Option<DockerSnapshot>, s: DockerSnapshot) {
    prior.Some? && prior.value.containerId == s.containerId
  }

  function Arrival(prior: Option<DockerSnapshot>, s: DockerSnapshot): seq<Body> {
    if prior.None? then [ContainerAvailable(s.containerId, s.name, s.image)]
    else
      OneIf(!Same(prior, s) || prior.value.restartCount < s.restartCount,
            ContainerRestarted(prior.value.containerId, s.containerId, prior.value.restartCount, s.restartCount))
  }

  function Changes(prior: Option<DockerSnapshot>, s: DockerSnapshot): seq<Body> {
    if !Same(prior, s) then []
    else
      OneIf(prior.value.state != s.state, StateChanged(prior.value.state, s.state))
      + OneIf(prior.value.health != s.health, HealthChanged(prior.value.health, s.health))
  }

  function Ends(prior: Option<DockerSnapshot>, s: DockerSnapshot): seq<Body> {
    OneIf(s.state == "exited" && (prior.None? || prior.value.state != "exited"), ContainerExited(s.exitCode))
    + OneIf(s.oomKilled && (prior.None? || !prior.value.oomKilled), OomKilled(s.exitCode))
  }

  function MemoryEvents(before: bool, after: bool, bytes: Option<nat>): seq<Body> {
    OneIf(after && !before, MemoryThreshold(bytes)) + OneIf(before && !after, MemoryRecovered(bytes))
  }

  /** `_previous_log_cursor`: the stored cursor, if it is one of the same container. */
  function CursorFor(previous: Option<Stored>, containerId: string): LogCursor {
    if AvailableIn(previous).Some? && AvailableIn(previous).value.containerId == containerId then previous.value.presence.logCursor
    else NO_CURSOR
  }

  /** What reading the logs gives; none for a transport error or a malformed response. */
  function LogBatch(config: Config, cursor: LogCursor, response: Option<seq<Option<Entry>>>): Option<Batch> {
    if response.None? then None
    else
      match Scan(config.digest, cursor, response.value, config.logLimit)
      case None => None
      case Some(b) => Some(Batch(b.lines, DockerLogs.Stored(b.cursor)))
  }

  function LogLines(containerId: string, lines: seq<Entry>): seq<Body> {
    seq(|lines|, i requires 0 <= i < |lines| => LogLine(containerId, lines[i]))
  }

  function LogEvents(config: Config, containerId: string, batch: Option<Batch>): seq<Body> {
    if !config.includeLogs then []
    else if batch.None? then [LogsUnavailable(containerId)]
    else LogLines(containerId, batch.value.lines)
  }

  function NextCursor(config: Config, previous: Option<Stored>, s: DockerSnapshot, response: Option<seq<Option<Entry>>>): LogCursor {
    var cursor := CursorFor(previous, s.containerId);
    var batch := LogBatch(config, cursor, response);
    if config.includeLogs && batch.Some? then batch.value.cursor else cursor
  }

  /** What a poll of a found container says, except for a heartbeat. */
  function Reported(config: Config, previous: Option<Stored>, s: DockerSnapshot, response: Option<seq<Option<Entry>>>): seq<Body> {
    var before := MemoryHighIn(previous);
    Lifecycle(AvailableIn(previous), s)
    + MemoryEvents(before, MemoryHigh(config, s, before), s.memoryBytes)
    + LogEvents(config, s.containerId, LogBatch(config, CursorFor(previous, s.containerId), response))
  }

  predicate HeartbeatDue(config: Config, previous: Option<Stored>, now: int) {
    previous.None? || now - previous.value.heartbeatAt >= config.heartbeatSeconds
  }

  predicate Beats(config: Config, previous: Option<Stored>, input: Input) {
    && input.outcome.Found?
    && Reported(config, previous, input.outcome.snapshot, input.response) == []
    && HeartbeatDue(config, previous, input.now)
  }

  function Said(config: Config, previous: Option<Stored>, input: Input): seq<Body> {
    match input.outcome
    case Absent(error) =>
      OneIf(previous.None? || previous.value.presence != Unavailable(error), NotThere(error))
    case Found(s) =>
      if Beats(config, previous, input) then [Heartbeat(s.state, s.health, s.memoryBytes)]
      else Reported(config, previous, s, input.response)
  }

  function PresenceAfter(config: Config, previous: Option<Stored>, input: Input): Presence {
    match input.outcome
    case Absent(error) => Unavailable(error)
    case Found(s) => Available(s, MemoryHigh(config, s, MemoryHighIn(previous)), NextCursor(config, previous, s, input.response))
  }

  /** Any event of an available container counts as a sign of life. */
  function HeartbeatAfter(config: Config, previous: Option<Stored>, input: Input): int {
    if previous.None? || (input.outcome.Found? && Said(config, previous, input) != []) then input.now
    else previous.value.heartbeatAt
  }

  function ErrorLines(config: Config, events: seq<Event<Body>>): seq<Event<Body>> {
    if events == [] then []
    else
      var last := events[|events| - 1];
      ErrorLines(config, events[..|events| - 1])
      + (if last.body.LogLine? && config.marksError(last.body.entry.line) then [last] else [])
  }

  function Polled(config: Config, previous: Option<Stored>, input: Input): Observation {
    var bodies := Said(config, previous, input);
    var events := Number(SequenceIn(previous), bodies);
    Observation(events,
                Stored(SequenceIn(previous) + |bodies|, PresenceAfter(config, previous, input), HeartbeatAfter(config, previous, input)),
                ErrorLines(config, events))
  }

  // ---- the observer ----

  /** One more event at the end. */
  lemma EmitOne(config: Config, from: nat, bodies: seq<Body>, body: Body)
    ensures var events, event := Number(from, bodies), Event(from + |bodies| + 1, body);
            && events + [event] == Number(from, bodies + [body])
            && ErrorLines(config, events + [event])
               == ErrorLines(config, events) + (if body.LogLine? && config.marksError(body.entry.line) then [event] else [])
  {
    var events, event := Number(from, bodies), Event(from + |bodies| + 1, body);
    assert (events + [event])[..|events|] == events;
  }

  lemma LogLinesSnoc(bodies: seq<Body>, containerId: string, lines: seq<Entry>, i: nat)
    requires i < |lines|
    ensures bodies + LogLines(containerId, lines[..i]) + [LogLine(containerId, lines[i])] == bodies + LogLines(containerId, lines[..i + 1])
  {
  }

  class Observer {
    const config: Config
    /** The events of the observation under way, and the last sequence number it used. */
    var events: seq<Event<Body>>
    var sequence: nat
    var incidents: seq<Event<Body>>

    constructor (config: Config)
      ensures this.config == config
    {
      this.config := config;
      events, sequence, incidents := [], 0, [];
    }

    ghost predicate Emitted(from: nat, bodies: seq<Body>)
      reads this
    {
      && events == Number(from, bodies)
      && sequence == from + |bodies|
      && incidents == ErrorLines(config, events)
    }

    method Begin(from: nat)
      modifies this
      ensures Emitted(from, [])
    {
      events, sequence, incidents := [], from, [];
    }

    /** `add`. */
    method Add(ghost from: nat, ghost bodies: seq<Body>, body: Body)
      requires Emitted(from, bodies) && !body.LogLine?
      modifies this
      ensures Emitted(from, bodies + [body])
    {
      EmitOne(config, from, bodies, body);
      hide Number, ErrorLines;
      sequence := sequence + 1;
      events := events + [Event(sequence, body)];
    }

    method AddLogLine(ghost from: nat, ghost bodies: seq<Body>, containerId: string, entry: Entry)
      requires Emitted(from, bodies)
      modifies this
      ensures Emitted(from, bodies + [LogLine(containerId, entry)])
    {
      EmitOne(config, from, bodies, LogLine(containerId, entry));
      hide Number, ErrorLines;
      sequence := sequence + 1;
      var event := Event(sequence, LogLine(containerId, entry));
      events := events + [event];
      if config.marksError(entry.line) { incidents := incidents + [event]; }
    }

    method AddLogLines(ghost from: nat, ghost bodies: seq<Body>, containerId: string, lines: seq<Entry>)
      requires Emitted(from, bodies)
      modifies this
      ensures Emitted(from, bodies + LogLines(containerId, lines))
    {
      hide Emitted;
      assert bodies + LogLines(containerId, []) == bodies;
      for i := 0 to |lines|
        invariant Emitted(from, bodies + LogLines(containerId, lines[..i]))
      {
        AddLogLine(from, bodies + LogLines(containerId, lines[..i]), containerId, lines[i]);
        LogLinesSnoc(bodies, containerId, lines, i);
      }
      assert lines[..|lines|] == lines;
    }

    method AddLifecycle(ghost from: nat, prior: Option<DockerSnapshot>, s: DockerSnapshot)
      requires Emitted(from, [])
      modifies this
      ensures Emitted(from, Lifecycle(prior, s))
    {
      hide Emitted;
      ghost var bodies: seq<Body> := [];
      var same := Same(prior, s);
      if prior.None? {
        Add(from, bodies, ContainerAvailable(s.containerId, s.name, s.image));
        bodies := bodies + [ContainerAvailable(s.containerId, s.name, s.image)];
      } else if !same || prior.value.restartCount < s.restartCount {
        var restarted := ContainerRestarted(prior.value.containerId, s.containerId, prior.value.restartCount, s.restartCount);
        Add(from, bodies, restarted);
        bodies := bodies + [restarted];
      }
      assert bodies == Arrival(prior, s);
      hide Same;
      ghost var arrival := bodies;
      hide Arrival;
      if same && prior.value.state != s.state {
        Add(from, bodies, StateChanged(prior.value.state, s.state));
        bodies := bodies + [StateChanged(prior.value.state, s.state)];
      }
      if same && prior.value.health != s.health {
        Add(from, bodies, HealthChanged(prior.value.health, s.health));
        bodies := bodies + [HealthChanged(prior.value.health, s.health)];
      }
      assert bodies == arrival + Changes(prior, s);
      ghost var changes := bodies;
      hide Changes;
      if s.state == "exited" && (prior.None? || prior.value.state != "exited") {
        Add(from, bodies, ContainerExited(s.exitCode));
        bodies := bodies + [ContainerExited(s.exitCode)];
      }
      if s.oomKilled && (prior.None? || !prior.value.oomKilled) {
        Add(from, bodies, OomKilled(s.exitCode));
        bodies := bodies + [OomKilled(s.exitCode)];
      }
      assert bodies == changes + Ends(prior, s);
    }

    method AddMemory(ghost from: nat, ghost bodies: seq<Body>, before: bool, after: bool, bytes: Option<nat>)
      requires Emitted(from, bodies)
      modifies this
      ensures Emitted(from, bodies + MemoryEvents(before, after, bytes))
    {
      hide Emitted;
      assert MemoryEvents(before, after, bytes)
          == if after && !before then [MemoryThreshold(bytes)] else if before && !after then [MemoryRecovered(bytes)] else [];
      assert bodies + [] == bodies;
      if after && !before { Add(from, bodies, MemoryThreshold(bytes)); }
      if before && !after { Add(from, bodies, MemoryRecovered(bytes)); }
    }

    /** Reads the logs and returns the cursor to store. */
    method AddLogs(ghost from: nat, ghost bodies: seq<Body>, containerId: string, cursor: LogCursor, response: Option<seq<Option<Entry>>>)
      returns (next: LogCursor)
      requires ValidConfig(config) && Emitted(from, bodies)
      modifies this
      ensures var batch := LogBatch(config, cursor, response);
              && Emitted(from, bodies + LogEvents(config, containerId, batch))
              && next == if config.includeLogs && batch.Some? then batch.value.cursor else cursor
    {
      next := cursor;
      if config.includeLogs {
        var batch: Option<Batch> := None;
        if response.Some? { batch := Logs(config.digest, cursor, response.value, config.logLimit); }
        if batch.None? {
          Add(from, bodies, LogsUnavailable(containerId));
        } else {
          next := batch.value.cursor;
          AddLogLines(from, bodies, containerId, batch.value.lines);
        }
      } else {
        assert bodies + [] == bodies;
      }
    }

    /** `observe`. */
    method Observe(previous: Option<Stored>, input: Input) returns (observation: Observation)
      requires ValidConfig(config)
      modifies this
      ensures observation == Polled(config, previous, input)
    {
      hide Lifecycle, MemoryEvents, LogEvents, LogBatch, ErrorLines, MemoryHigh;
      ghost var from := SequenceIn(previous);
      Begin(SequenceIn(previous));
      match input.outcome {
        case Absent(error) =>
          if previous.None? || previous.value.presence != Unavailable(error) {
            Add(from, [], NotThere(error));
            assert [] + [NotThere(error)] == [NotThere(error)];
          }
          observation := Observation(
            events, Stored(sequence, Unavailable(error), if previous.Some? then previous.value.heartbeatAt else input.now), incidents);
        case Found(s) =>
          var cursor := CursorFor(previous, s.containerId);
          var before := MemoryHighIn(previous);
          var memoryHigh := MemoryHigh(config, s, before);
          AddLifecycle(from, AvailableIn(previous), s);
          AddMemory(from, Lifecycle(AvailableIn(previous), s), before, memoryHigh, s.memoryBytes);
          var next := AddLogs(from, Lifecycle(AvailableIn(previous), s) + MemoryEvents(before, memoryHigh, s.memoryBytes),
                              s.containerId, cursor, input.response);
          assert Emitted(from, Reported(config, previous, s, input.response));
          if events == [] && (previous.None? || input.now - previous.value.heartbeatAt >= config.heartbeatSeconds) {
            assert Reported(config, previous, s, input.response) == [];
            Add(from, [], Heartbeat(s.state, s.health, s.memoryBytes));
            assert [] + [Heartbeat(s.state, s.health, s.memoryBytes)] == [Heartbeat(s.state, s.health, s.memoryBytes)];
          }
          assert Emitted(from, Said(config, previous, input));
          var heartbeatAt := if events != [] || previous.None? then input.now else previous.value.heartbeatAt;
          observation := Observation(events, Stored(sequence, Available(s, memoryHigh, next), heartbeatAt), incidents);
      }
    }
  }

  lemma PollIsConsecutive(config: Config, previous: Option<Stored>, input: Input)
    ensures var o := Polled(config, previous, input);
            Consecutive(SequenceIn(previous), o.events, o.stored.sequence)
  {
    hide Said, ErrorLines;
  }

  // ---- runs ----

  datatype Trace = Trace(bodies: seq<Body>, stored: Option<Stored>)

  function Run(config: Config, previous: Option<Stored>, inputs: seq<Input>): Trace
    decreases |inputs|
  {
    if inputs == [] then Trace([], previous)
    else
      var first := Polled(config, previous, inputs[0]);
      var rest := Run(config, Some(first.stored), inputs[1..]);
      Trace(Bodies(first.events) + rest.bodies, rest.stored)
  }

  lemma PollSays(config: Config, previous: Option<Stored>, input: Input)
    ensures var o := Polled(config, previous, input);
            && Bodies(o.events) == Said(config, previous, input)
            && o.stored.presence == PresenceAfter(config, previous, input)
            && o.stored.heartbeatAt == HeartbeatAfter(config, previous, input)
  {
    hide Said, ErrorLines;
  }

  // ---- exactly what a poll says ----

  /** The available container a poll compares with: the one stored by the poll before. */
  function Before(previous: Option<Stored>): Option<DockerSnapshot> {
    match previous
    case Some(Stored(_, Available(s, _, _), _)) => Some(s)
    case _ => None
  }

  predicate HighBefore(previous: Option<Stored>) {
    match previous
    case Some(Stored(_, Available(_, high, _), _)) => high
    case _ => false
  }

  /** The sample reaches the limit, or stays within a tenth below it. */
  predicate AtLimit(limit: Option<nat>, bytes: Option<nat>) { limit.Some? && bytes.Some? && bytes.value >= limit.value }

  predicate NearLimit(limit: Option<nat>, bytes: Option<nat>) { limit.Some? && bytes.Some? && 10 * bytes.value >= 9 * limit.value }

  /** What the container before and the container found justify saying of its life. */
  predicate LifeJustified(p: Option<DockerSnapshot>, s: DockerSnapshot, body: Body) {
    match body
    case ContainerAvailable(id, name, image) => p.None? && id == s.containerId && name == s.name && image == s.image
    case ContainerRestarted(before, id, was, restarts) =>
      p.Some? && before == p.value.containerId && id == s.containerId && was == p.value.restartCount && restarts == s.restartCount
      && (before != id || was < restarts)
    case StateChanged(a, b) => p.Some? && p.value.containerId == s.containerId && a == p.value.state && b == s.state && a != b
    case HealthChanged(a, b) => p.Some? && p.value.containerId == s.containerId && a == p.value.health && b == s.health && a != b
    case ContainerExited(code) => s.state == "exited" && (p.Some? ==> p.value.state != "exited") && code == s.exitCode
    case OomKilled(code) => s.oomKilled && (p.Some? ==> !p.value.oomKilled) && code == s.exitCode
    case _ => false
  }

  predicate MemoryJustified(limit: Option<nat>, high: bool, bytes: Option<nat>, body: Body) {
    match body
    case MemoryThreshold(b) => !high && AtLimit(limit, bytes) && b == bytes
    case MemoryRecovered(b) => high && !NearLimit(limit, bytes) && b == bytes
    case _ => false
  }

  predicate LogJustified(wanted: bool, containerId: string, batch: Option<Batch>, body: Body) {
    match body
    case LogLine(id, entry) => wanted && batch.Some? && entry in batch.value.lines && id == containerId
    case LogsUnavailable(id) => wanted && batch.None? && id == containerId
    case _ => false
  }

  /** What a poll has reason to say, besides a heartbeat. */
  predicate Justified(config: Config, previous: Option<Stored>, input: Input, body: Body) {
    match input.outcome
    case Absent(error) => body == NotThere(error) && (previous.Some? ==> previous.value.presence != Unavailable(error))
    case Found(s) =>
      || LifeJustified(Before(previous), s, body)
      || MemoryJustified(config.memoryWarning, HighBefore(previous), s.memoryBytes, body)
      || LogJustified(config.includeLogs, s.containerId, LogBatch(config, CursorFor(previous, s.containerId), input.response), body)
  }

  lemma InOneIf(condition: bool, one: Body, body: Body)
    ensures body in OneIf(condition, one) <==> condition && body == one
  {
  }

  lemma LifecycleMeans(p: Option<DockerSnapshot>, s: DockerSnapshot, body: Body)
    ensures body in Lifecycle(p, s) <==> LifeJustified(p, s, body)
  {
    ArrivalMeans(p, s, body);
    ChangesMean(p, s, body);
    EndsMean(p, s, body);
    hide Arrival, Changes, Ends;
    assert body in Lifecycle(p, s) <==> body in Arrival(p, s) || body in Changes(p, s) || body in Ends(p, s);
  }

  lemma ArrivalMeans(p: Option<DockerSnapshot>, s: DockerSnapshot, body: Body)
    ensures body in Arrival(p, s) <==> (body.ContainerAvailable? || body.ContainerRestarted?) && LifeJustified(p, s, body)
  {
    hide OneIf;
    if p.Some? {
      InOneIf(!Same(p, s) || p.value.restartCount < s.restartCount,
              ContainerRestarted(p.value.containerId, s.containerId, p.value.restartCount, s.restartCount), body);
    }
  }

  lemma ChangesMean(p: Option<DockerSnapshot>, s: DockerSnapshot, body: Body)
    ensures body in Changes(p, s) <==> (body.StateChanged? || body.HealthChanged?) && LifeJustified(p, s, body)
  {
    hide OneIf;
    if Same(p, s) {
      InOneIf(p.value.state != s.state, StateChanged(p.value.state, s.state), body);
      InOneIf(p.value.health != s.health, HealthChanged(p.value.health, s.health), body);
    }
  }

  lemma EndsMean(p: Option<DockerSnapshot>, s: DockerSnapshot, body: Body)
    ensures body in Ends(p, s) <==> (body.ContainerExited? || body.OomKilled?) && LifeJustified(p, s, body)
  {
    hide OneIf;
    InOneIf(s.state == "exited" && (p.None? || p.value.state != "exited"), ContainerExited(s.exitCode), body);
    InOneIf(s.oomKilled && (p.None? || !p.value.oomKilled), OomKilled(s.exitCode), body);
  }

  lemma MemoryMeans(config: Config, s: DockerSnapshot, before: bool, body: Body)
    ensures body in MemoryEvents(before, MemoryHigh(config, s, before), s.memoryBytes)
       <==> MemoryJustified(config.memoryWarning, before, s.memoryBytes, body)
  {
    hide OneIf;
    var after := MemoryHigh(config, s, before);
    InOneIf(after && !before, MemoryThreshold(s.memoryBytes), body);
    InOneIf(before && !after, MemoryRecovered(s.memoryBytes), body);
  }

  lemma LogMeans(config: Config, containerId: string, batch: Option<Batch>, body: Body)
    ensures body in LogEvents(config, containerId, batch) <==> LogJustified(config.includeLogs, containerId, batch, body)
  {
    if batch.Some? {
      var lines := LogLines(containerId, batch.value.lines);
      if body.LogLine? && body.containerId == containerId && body.entry in batch.value.lines {
        var i :| 0 <= i < |batch.value.lines| && batch.value.lines[i] == body.entry;
        assert lines[i] == body;
      }
    }
  }

  lemma BeforeIsStored(previous: Option<Stored>)
    ensures AvailableIn(previous) == Before(previous) && MemoryHighIn(previous) == HighBefore(previous)
  {
  }

  lemma ReportedMeans(config: Config, previous: Option<Stored>, input: Input, body: Body)
    requires input.outcome.Found?
    ensures body in Reported(config, previous, input.outcome.snapshot, input.response) <==> Justified(config, previous, input, body)
  {
    var s, before := input.outcome.snapshot, MemoryHighIn(previous);
    var batch := LogBatch(config, CursorFor(previous, s.containerId), input.response);
    hide Lifecycle, MemoryEvents, LogEvents, MemoryHigh, LifeJustified, MemoryJustified, LogJustified, LogBatch, CursorFor, Before, HighBefore;
    BeforeIsStored(previous);
    LifecycleMeans(Before(previous), s, body);
    MemoryMeans(config, s, before, body);
    LogMeans(config, s.containerId, batch, body);
  }

  /**
   A poll says exactly what the container stored by the poll before, its memory flag, the container found
   now and its log justify, with the values of these; and if that is nothing and the last sign of life is
   heartbeat_seconds old, exactly one heartbeat.
   */
  lemma PollSaysWhatIsJustified(config: Config, previous: Option<Stored>, input: Input, body: Body)
    ensures var bodies := Bodies(Polled(config, previous, input).events);
            var due := input.outcome.Found? && (previous.Some? ==> input.now - previous.value.heartbeatAt >= config.heartbeatSeconds);
            if due && (forall b :: !Justified(config, previous, input, b)) then
              var s := input.outcome.snapshot; bodies == [Heartbeat(s.state, s.health, s.memoryBytes)]
            else body in bodies <==> Justified(config, previous, input, body)
  {
    PollSays(config, previous, input);
    hide Polled, Reported;
    match input.outcome
    case Absent(error) => assert Justified(config, previous, input, body) ==> body == NotThere(error);
    case Found(s) =>
      var reported := Reported(config, previous, s, input.response);
      hide Justified;
      forall b ensures b in reported <==> Justified(config, previous, input, b) { ReportedMeans(config, previous, input, b); }
      if reported != [] { assert reported[0] in reported; }
  }

  /** The order of the events of one poll; log lines come last, in their own order. */
  function Rank(body: Body): nat {
    match body
    case ContainerAvailable(_, _, _) => 1
    case ContainerRestarted(_, _, _, _) => 1
    case StateChanged(_, _) => 2
    case HealthChanged(_, _) => 3
    case ContainerExited(_) => 4
    case OomKilled(_) => 5
    case MemoryThreshold(_) => 6
    case MemoryRecovered(_) => 6
    case LogLine(_, _) => 7
    case LogsUnavailable(_) => 7
    case _ => 0
  }

  predicate Ranked(bodies: seq<Body>) {
    forall i, j :: 0 <= i < j < |bodies| ==> Rank(bodies[i]) < Rank(bodies[j]) || (bodies[i].LogLine? && bodies[j].LogLine?)
  }

  predicate RankedWithin(bodies: seq<Body>, low: nat, high: nat) {
    Ranked(bodies) && forall i :: 0 <= i < |bodies| ==> low <= Rank(bodies[i]) < high
  }

  lemma RankedConcat(a: seq<Body>, b: seq<Body>, low: nat, middle: nat, high: nat)
    requires RankedWithin(a, low, middle) && RankedWithin(b, middle, high) && low <= middle <= high
    ensures RankedWithin(a + b, low, high)
  {
  }

  lemma OneIsRanked(condition: bool, body: Body)
    ensures RankedWithin(OneIf(condition, body), Rank(body), Rank(body) + 1)
  {
    hide Rank;
  }

  lemma TwoAreRanked(x: bool, a: Body, y: bool, b: Body, low: nat, middle: nat, high: nat)
    requires low <= Rank(a) < middle <= Rank(b) < high
    ensures RankedWithin(OneIf(x, a) + OneIf(y, b), low, high)
  {
    hide Rank;
  }

  lemma LifecycleIsRanked(p: Option<DockerSnapshot>, s: DockerSnapshot)
    ensures RankedWithin(Lifecycle(p, s), 1, 6)
  {
    hide OneIf, RankedWithin, Same;
    assert RankedWithin(Arrival(p, s), 1, 2) by { ArrivalIsRanked(p, s); }
    assert RankedWithin(Changes(p, s), 2, 4) by { ChangesAreRanked(p, s); }
    TwoAreRanked(s.state == "exited" && (p.None? || p.value.state != "exited"), ContainerExited(s.exitCode),
                 s.oomKilled && (p.None? || !p.value.oomKilled), OomKilled(s.exitCode), 4, 5, 6);
    assert RankedWithin(Ends(p, s), 4, 6);
    hide Arrival, Changes, Ends;
    RankedConcat(Arrival(p, s), Changes(p, s), 1, 2, 4);
    RankedConcat(Arrival(p, s) + Changes(p, s), Ends(p, s), 1, 4, 6);
  }

  lemma ArrivalIsRanked(p: Option<DockerSnapshot>, s: DockerSnapshot)
    ensures RankedWithin(Arrival(p, s), 1, 2)
  {
    hide OneIf, Same;
    if p.Some? {
      OneIsRanked(!Same(p, s) || p.value.restartCount < s.restartCount,
                  ContainerRestarted(p.value.containerId, s.containerId, p.value.restartCount, s.restartCount));
    }
  }

  lemma ChangesAreRanked(p: Option<DockerSnapshot>, s: DockerSnapshot)
    ensures RankedWithin(Changes(p, s), 2, 4)
  {
    hide OneIf;
    if Same(p, s) {
      TwoAreRanked(p.value.state != s.state, StateChanged(p.value.state, s.state),
                   p.value.health != s.health, HealthChanged(p.value.health, s.health), 2, 3, 4);
    }
  }

  lemma MemoryIsRanked(before: bool, after: bool, bytes: Option<nat>)
    ensures RankedWithin(MemoryEvents(before, after, bytes), 6, 7)
  {
  }

  lemma LogsAreRanked(config: Config, containerId: string, batch: Option<Batch>)
    ensures RankedWithin(LogEvents(config, containerId, batch), 7, 8)
  {
  }

  lemma ReportedIsRanked(config: Config, previous: Option<Stored>, s: DockerSnapshot, response: Option<seq<Option<Entry>>>)
    ensures Ranked(Reported(config, previous, s, response))
  {
    var p, before := AvailableIn(previous), MemoryHighIn(previous);
    var after := MemoryHigh(config, s, before);
    var batch := LogBatch(config, CursorFor(previous, s.containerId), response);
    var life, memory, logs := Lifecycle(p, s), MemoryEvents(before, after, s.memoryBytes), LogEvents(config, s.containerId, batch);
    assert Reported(config, previous, s, response) == life + memory + logs;
    hide *;
    LifecycleIsRanked(p, s);
    MemoryIsRanked(before, after, s.memoryBytes);
    LogsAreRanked(config, s.containerId, batch);
    RankedConcat(life, memory, 1, 6, 7);
    RankedConcat(life + memory, logs, 1, 7, 8);
    WithinIsRanked(life + memory + logs, 1, 8);
  }

  /** And each of them once, in this order. */
  lemma PollIsRanked(config: Config, previous: Option<Stored>, input: Input)
    ensures Ranked(Bodies(Polled(config, previous, input).events))
  {
    PollSays(config, previous, input);
    var said := Said(config, previous, input);
    hide Polled, Ranked, Reported, Beats;
    if input.outcome.Found? && !Beats(config, previous, input) {
      ReportedIsRanked(config, previous, input.outcome.snapshot, input.response);
    } else {
      FewAreRanked(said);
    }
  }

  lemma FewAreRanked(bodies: seq<Body>)
    requires |bodies| <= 1
    ensures Ranked(bodies)
  {
  }

  lemma WithinIsRanked(bodies: seq<Body>, low: nat, high: nat)
    requires RankedWithin(bodies, low, high)
    ensures Ranked(bodies)
  {
  }

  /** The incident candidates are the log lines that are marked as errors, in their order. */
  lemma {:induction false} CandidatesAreErrors(config: Config, events: seq<Event<Body>>, e: Event<Body>)
    ensures e in ErrorLines(config, events) <==> e in events && e.body.LogLine? && config.marksError(e.body.entry.line)
    ensures |ErrorLines(config, events)| <= |events|
  {
    if events != [] {
      var front := events[..|events| - 1];
      CandidatesAreErrors(config, front, e);
      assert events == front + [events[|events| - 1]];
    }
  }

  /** A log is read on from the cursor stored for the same container; for any other it is read anew. */
  lemma OnlyOwnCursorIsUsed(config: Config, previous: Option<Stored>, input: Input)
    requires input.outcome.Found?
    ensures var id := input.outcome.snapshot.containerId;
            var cursor := match previous
                          case Some(Stored(_, Available(s, _, c), _)) => if s.containerId == id then c else NO_CURSOR
                          case _ => NO_CURSOR;
            && CursorFor(previous, id) == cursor
            && (var stored := Polled(config, previous, input).stored.presence;
                stored.Available? && (!config.includeLogs || LogBatch(config, cursor, input.response).None? ==> stored.logCursor == cursor))
  {
    PollSays(config, previous, input);
    hide Polled, LogBatch;
  }

  /** A reading fails if the endpoint does or a line before the limit has no timestamp; else it is one of the log's polls. */
  lemma ReadingIsAPoll(config: Config, cursor: LogCursor, response: Option<seq<Option<Entry>>>)
    ensures var batch := LogBatch(config, cursor, response);
            && (response.None? ==> batch.None?)
            && (response.Some? ==> (batch.None? <==> Scan(config.digest, cursor, response.value, config.logLimit).None?))
            && (batch.Some? ==>
                  var scan := Scan(config.digest, cursor, response.value, config.logLimit).value;
                  batch.value.lines == scan.lines && batch.value.cursor == DockerLogs.Stored(scan.cursor))
  {
  }

  /** A poll remembers what it found, and any event about a container that is there counts as a sign of life. */
  lemma PollRemembers(config: Config, previous: Option<Stored>, input: Input)
    ensures var o := Polled(config, previous, input);
            && (match input.outcome
                case Absent(error) => o.stored.presence == Unavailable(error)
                case Found(s) =>
                  && o.stored.presence.Available? && o.stored.presence.snapshot == s
                  && (o.stored.presence.memoryHigh <==>
                        if HighBefore(previous) then NearLimit(config.memoryWarning, s.memoryBytes)
                        else AtLimit(config.memoryWarning, s.memoryBytes)))
            && o.stored.heartbeatAt == (if previous.None? || (input.outcome.Found? && o.events != []) then input.now
                                        else previous.value.heartbeatAt)
            && o.incidents == ErrorLines(config, o.events)
  {
    PollSays(config, previous, input);
    BeforeIsStored(previous);
    hide Said, LogBatch, NextCursor;
    assert Polled(config, previous, input).events == [] <==> Said(config, previous, input) == [];
  }

  // ---- how many events ----

  function Nows(inputs: seq<Input>): (nows: seq<int>)
    ensures |nows| == |inputs| && forall i :: 0 <= i < |inputs| ==> nows[i] == inputs[i].now
  {
    seq(|inputs|, i requires 0 <= i < |inputs| => inputs[i].now)
  }

  /** The outcome a stored presence came from. */
  function OutcomeOf(p: Presence): Outcome {
    match p
    case Unavailable(error) => Absent(error)
    case Available(s, _, _) => Found(s)
  }

  /** How often the outcome differs from the one before. */
  function OutcomeChanges(last: Outcome, inputs: seq<Input>): nat
    decreases |inputs|
  {
    if inputs == [] then 0
    else (if inputs[0].outcome != last then 1 else 0) + OutcomeChanges(inputs[0].outcome, inputs[1..])
  }

  function Heartbeats(config: Config, previous: Option<Stored>, inputs: seq<Input>): seq<int>
    decreases |inputs|
  {
    if inputs == [] then []
    else
      (if Beats(config, previous, inputs[0]) then [inputs[0].now] else [])
      + Heartbeats(config, Some(Polled(config, previous, inputs[0]).stored), inputs[1..])
  }

  /** The memory flag is one its own snapshot confirms. */
  predicate Settled(config: Config, s: Stored) {
    s.presence.Available? ==> MemoryHigh(config, s.presence.snapshot, s.presence.memoryHigh) == s.presence.memoryHigh
  }

  lemma PollSettles(config: Config, previous: Option<Stored>, input: Input)
    requires ValidConfig(config)
    ensures Settled(config, Polled(config, previous, input).stored)
  {
    PollSays(config, previous, input);
    hide Polled, Said, High;
    if input.outcome.Found? {
      RepeatIsQuiet(Reals(config.memoryWarning), Reals(input.outcome.snapshot.memoryBytes), MemoryHighIn(previous));
    }
  }

  lemma LifecycleVolume(prior: Option<DockerSnapshot>, s: DockerSnapshot)
    ensures |Lifecycle(prior, s)| <= 5
    ensures prior == Some(s) ==> Lifecycle(prior, s) == []
  {
  }

  lemma PollVolume(config: Config, previous: Stored, input: Input)
    requires ValidConfig(config) && !config.includeLogs && Settled(config, previous)
    ensures |Said(config, Some(previous), input)|
         <= (if input.outcome != OutcomeOf(previous.presence) then 6 else 0) + (if Beats(config, Some(previous), input) then 1 else 0)
  {
    if input.outcome.Found? {
      LifecycleVolume(AvailableIn(Some(previous)), input.outcome.snapshot);
      hide Lifecycle, LogBatch, High;
    }
  }

  lemma PollPace(config: Config, previous: Stored, input: Input)
    ensures HeartbeatAfter(config, Some(previous), input) in {input.now, previous.heartbeatAt}
    ensures Beats(config, Some(previous), input) ==>
              && input.now >= previous.heartbeatAt + config.heartbeatSeconds
              && HeartbeatAfter(config, Some(previous), input) == input.now
  {
    hide Reported;
  }

  /** With logs off, a run after a first poll emits at most 6 events for each change of outcome, plus its heartbeats. */
  lemma {:induction false} ChangesBoundVolume(config: Config, previous: Stored, inputs: seq<Input>)
    requires ValidConfig(config) && !config.includeLogs && Settled(config, previous)
    ensures |Run(config, Some(previous), inputs).bodies|
         <= 6 * OutcomeChanges(OutcomeOf(previous.presence), inputs) + |Heartbeats(config, Some(previous), inputs)|
    decreases |inputs|
  {
    if inputs != [] {
      PollSays(config, Some(previous), inputs[0]);
      PollVolume(config, previous, inputs[0]);
      PollSettles(config, Some(previous), inputs[0]);
      hide Polled, Said, Beats, Settled, ValidConfig, NextCursor, MemoryHigh, HeartbeatAfter;
      ChangesBoundVolume(config, Polled(config, Some(previous), inputs[0]).stored, inputs[1..]);
    }
  }

  /** With a clock that does not run backwards heartbeats are at least heartbeat_seconds apart, across outages too. */
  lemma {:induction false} HeartbeatsAreSpaced(config: Config, previous: Stored, from: int, inputs: seq<Input>)
    requires previous.heartbeatAt <= from && SpacedBy(0, from, Nows(inputs))
    ensures var beats := Heartbeats(config, Some(previous), inputs);
            && SpacedBy(config.heartbeatSeconds, previous.heartbeatAt, beats)
            && Last(previous.heartbeatAt, beats) <= Last(from, Nows(inputs))
    decreases |inputs|
  {
    if inputs != [] {
      PollSays(config, Some(previous), inputs[0]);
      PollPace(config, previous, inputs[0]);
      hide Polled, Said, Beats, HeartbeatAfter, PresenceAfter;
      var now, next := inputs[0].now, Polled(config, Some(previous), inputs[0]).stored;
      assert Nows(inputs)[1..] == Nows(inputs[1..]);
      HeartbeatsAreSpaced(config, next, now, inputs[1..]);
      var later := Heartbeats(config, Some(next), inputs[1..]);
      LastOfRest(from, Nows(inputs));
      if Beats(config, Some(previous), inputs[0]) {
        var beats := [now] + later;
        assert beats[1..] == later;
        LastOfRest(previous.heartbeatAt, beats);
      } else {
        assert [] + later == later;
        SpacedLater(config.heartbeatSeconds, previous.heartbeatAt, next.heartbeatAt, later);
      }
    }
  }

  /** From the start, logs off: at most 6 events for each change of outcome, the first poll counted, plus elapsed time over heartbeat_seconds. */
  lemma {:induction false} VolumeFromStart(config: Config, inputs: seq<Input>)
    requires ValidConfig(config) && !config.includeLogs
    requires inputs != [] && SpacedBy(0, inputs[0].now, Nows(inputs))
    ensures var volume := |Run(config, None, inputs).bodies|;
            var changes := 1 + OutcomeChanges(inputs[0].outcome, inputs[1..]);
            (volume - 6 * changes) * config.heartbeatSeconds <= inputs[|inputs| - 1].now - inputs[0].now
  {
    hide *;
    var first := RunFromStart(config, inputs);
    var rest := inputs[1..];
    NowsRest(inputs);
    var volume := |Run(config, None, inputs).bodies|;
    var changes := 1 + OutcomeChanges(inputs[0].outcome, inputs[1..]);
    VolumeAfterFirst(config, first, inputs[0].now, rest, volume, changes);
  }

  lemma VolumeAfterFirst(config: Config, first: Stored, now: int, rest: seq<Input>, volume: nat, changes: nat)
    requires ValidConfig(config) && !config.includeLogs && Settled(config, first)
    requires first.heartbeatAt == now && SpacedBy(0, now, Nows(rest))
    requires volume <= 6 + |Run(config, Some(first), rest).bodies| && changes == 1 + OutcomeChanges(OutcomeOf(first.presence), rest)
    ensures (volume - 6 * changes) * config.heartbeatSeconds <= Last(now, Nows(rest)) - now
  {
    hide *;
    ChangesBoundVolume(config, first, rest);
    HeartbeatsAreSpaced(config, first, now, rest);
    var beats := Heartbeats(config, Some(first), rest);
    SpacedAtMost(config.heartbeatSeconds, now, beats, volume - 6 * changes);
  }

  lemma NowsRest(inputs: seq<Input>)
    requires inputs != [] && SpacedBy(0, inputs[0].now, Nows(inputs))
    ensures SpacedBy(0, inputs[0].now, Nows(inputs[1..]))
    ensures Last(inputs[0].now, Nows(inputs[1..])) == inputs[|inputs| - 1].now
  {
    assert Nows(inputs)[1..] == Nows(inputs[1..]);
    LastOfRest(inputs[0].now, Nows(inputs));
  }

  lemma RunFromStart(config: Config, inputs: seq<Input>) returns (first: Stored)
    requires ValidConfig(config) && !config.includeLogs && inputs != []
    ensures first.heartbeatAt == inputs[0].now && OutcomeOf(first.presence) == inputs[0].outcome && Settled(config, first)
    ensures |Run(config, None, inputs).bodies| <= 6 + |Run(config, Some(first), inputs[1..]).bodies|
  {
    PollSays(config, None, inputs[0]);
    PollSettles(config, None, inputs[0]);
    FirstPoll(config, inputs[0]);
    first := Polled(config, None, inputs[0]).stored;
    hide Polled, Said, HeartbeatAfter, Settled, MemoryHigh, NextCursor;
  }

  lemma FirstPoll(config: Config, input: Input)
    requires !config.includeLogs
    ensures |Said(config, None, input)| <= 6 && HeartbeatAfter(config, None, input) == input.now
  {
    if input.outcome.Found? {
      LifecycleVolume(None, input.outcome.snapshot);
      hide Lifecycle, LogBatch, High;
    }
  }

  // ---- memory has hysteresis ----

  predicate AllFound(inputs: seq<Input>) {
    forall i :: 0 <= i < |inputs| ==> inputs[i].outcome.Found?
  }

  function MemorySamples(inputs: seq<Input>): (samples: seq<Option<real>>)
    requires AllFound(inputs)
    ensures |samples| == |inputs|
  {
    seq(|inputs|, i requires 0 <= i < |inputs| => Reals(inputs[i].outcome.snapshot.memoryBytes))
  }

  /** What the events of one poll say about memory. */
  function MemoryMark(bodies: seq<Body>): Mark {
    if exists b :: b in bodies && b.MemoryThreshold? then Crossed
    else if exists b :: b in bodies && b.MemoryRecovered? then Cleared
    else Quiet
  }

  function MemoryMarks(config: Config, previous: Option<Stored>, inputs: seq<Input>): seq<Mark>
    decreases |inputs|
  {
    if inputs == [] then []
    else
      var first := Polled(config, previous, inputs[0]);
      [MemoryMark(Bodies(first.events))] + MemoryMarks(config, Some(first.stored), inputs[1..])
  }

  lemma PollMarksMemory(config: Config, previous: Option<Stored>, input: Input)
    requires input.outcome.Found?
    ensures MemoryMark(Said(config, previous, input))
         == MarkOf(MemoryHighIn(previous), MemoryHigh(config, input.outcome.snapshot, MemoryHighIn(previous)))
  {
    hide Lifecycle, LogBatch, LogLines, High, MemoryHigh, MemoryMark;
    var s := input.outcome.snapshot;
    var before := MemoryHighIn(previous);
    var after := MemoryHigh(config, s, before);
    LifecycleIsAboutContainer(AvailableIn(previous), s);
    LogEventsAreLogs(config, s.containerId, LogBatch(config, CursorFor(previous, s.containerId), input.response));
    var logs := LogEvents(config, s.containerId, LogBatch(config, CursorFor(previous, s.containerId), input.response));
    MarksInside(Lifecycle(AvailableIn(previous), s), before, after, s.memoryBytes, logs);
    if Beats(config, previous, input) {
      MarksInside([Heartbeat(s.state, s.health, s.memoryBytes)], false, false, None, []);
      assert [Heartbeat(s.state, s.health, s.memoryBytes)] + MemoryEvents(false, false, None) + []
          == [Heartbeat(s.state, s.health, s.memoryBytes)];
      MarksInside([], false, false, None, []);
      assert [] + MemoryEvents(false, false, None) + [] == [];
    }
  }

  lemma LogEventsAreLogs(config: Config, containerId: string, batch: Option<Batch>)
    ensures forall b :: b in LogEvents(config, containerId, batch) ==> b.LogLine? || b.LogsUnavailable?
  {
  }

  lemma MarksInside(first: seq<Body>, before: bool, after: bool, bytes: Option<nat>, last: seq<Body>)
    requires forall b :: b in first + last ==> !b.MemoryThreshold? && !b.MemoryRecovered?
    ensures MemoryMark(first + MemoryEvents(before, after, bytes) + last) == MarkOf(before, after)
  {
    var memory := MemoryEvents(before, after, bytes);
    var bodies := first + memory + last;
    assert memory == if MarkOf(before, after).Crossed? then [MemoryThreshold(bytes)]
                     else if MarkOf(before, after).Cleared? then [MemoryRecovered(bytes)] else [];
    assert forall b :: b in bodies <==> b in first || b in memory || b in last;
    assert MarkOf(before, after).Crossed? ==> MemoryThreshold(bytes) in memory;
    assert MarkOf(before, after).Cleared? ==> MemoryRecovered(bytes) in memory;
  }

  lemma LifecycleIsAboutContainer(prior: Option<DockerSnapshot>, s: DockerSnapshot)
    ensures forall b :: b in Lifecycle(prior, s) ==> !b.LogLine? && !b.MemoryThreshold? && !b.MemoryRecovered?
  {
    hide Lifecycle;
    forall b | b in Lifecycle(prior, s) ensures !b.LogLine? && !b.MemoryThreshold? && !b.MemoryRecovered? {
      LifecycleMeans(prior, s, b);
    }
  }

  /** Within an available epoch the memory events are the marks of the memory samples, so all laws of marks hold of them. */
  lemma {:induction false} MemoryFollowsSamples(config: Config, previous: Option<Stored>, inputs: seq<Input>)
    requires AllFound(inputs)
    ensures MemoryMarks(config, previous, inputs)
         == Marks(Reals(config.memoryWarning), MemoryHighIn(previous), MemorySamples(inputs))
    ensures MemoryHighIn(Run(config, previous, inputs).stored)
         == FlagAfter(Reals(config.memoryWarning), MemoryHighIn(previous), MemorySamples(inputs))
    decreases |inputs|
  {
    if inputs == [] {
    } else {
      PollSays(config, previous, inputs[0]);
      PollMarksMemory(config, previous, inputs[0]);
      PollSetsFlag(config, previous, inputs[0]);
      UnfoldOnce(config, previous, inputs);
      hide *;
      MemoryFollowsSamples(config, Some(Polled(config, previous, inputs[0]).stored), inputs[1..]);
      MarksUnfold(Reals(config.memoryWarning), MemoryHighIn(previous), MemorySamples(inputs));
    }
  }

  lemma PollSetsFlag(config: Config, previous: Option<Stored>, input: Input)
    requires input.outcome.Found?
    ensures MemoryHighIn(Some(Polled(config, previous, input).stored))
         == MemoryHigh(config, input.outcome.snapshot, MemoryHighIn(previous))
         == High(Reals(config.memoryWarning), Reals(input.outcome.snapshot.memoryBytes), MemoryHighIn(previous))
  {
    PollSays(config, previous, input);
    hide Polled, Said, High, NextCursor;
  }

  lemma UnfoldOnce(config: Config, previous: Option<Stored>, inputs: seq<Input>)
    requires AllFound(inputs) && inputs != []
    ensures inputs[0].outcome.Found? && AllFound(inputs[1..])
    ensures var first := Polled(config, previous, inputs[0]);
            && Run(config, previous, inputs).stored == Run(config, Some(first.stored), inputs[1..]).stored
            && MemoryMarks(config, previous, inputs)
               == [MemoryMark(Bodies(first.events))] + MemoryMarks(config, Some(first.stored), inputs[1..])
            && MemorySamples(inputs) == [Reals(inputs[0].outcome.snapshot.memoryBytes)] + MemorySamples(inputs[1..])
  {
    hide Polled, MemoryMark;
  }

  /** So in an epoch, whatever containers come and go in it, the memory events have hysteresis and start with a threshold. */
  lemma MemoryHasHysteresis(config: Config, previous: Option<Stored>, inputs: seq<Input>)
    requires AllFound(inputs) && AvailableIn(previous).None?
    ensures HasHysteresis(Reals(config.memoryWarning), false, MemorySamples(inputs), MemoryMarks(config, previous, inputs))
  {
    MemoryFollowsSamples(config, previous, inputs);
    MarksHaveHysteresis(Reals(config.memoryWarning), false, MemorySamples(inputs));
  }

  // ---- logs are emitted exactly once ----

  /** The lines among the events, in order. */
  function EmittedLines(bodies: seq<Body>): seq<Entry>
    decreases |bodies|
  {
    if bodies == [] then []
    else (if bodies[0].LogLine? then [bodies[0].entry] else []) + EmittedLines(bodies[1..])
  }

  lemma {:induction false} EmittedConcat(a: seq<Body>, b: seq<Body>)
    ensures EmittedLines(a + b) == EmittedLines(a) + EmittedLines(b)
    decreases |a|
  {
    if a == [] {
      assert a + b == b;
    } else {
      assert (a + b)[0] == a[0] && (a + b)[1..] == a[1..] + b;
      EmittedConcat(a[1..], b);
    }
  }

  lemma {:induction false} NoLines(bodies: seq<Body>)
    requires forall b :: b in bodies ==> !b.LogLine?
    ensures EmittedLines(bodies) == []
    decreases |bodies|
  {
    if bodies != [] { NoLines(bodies[1..]); }
  }

  lemma {:induction false} LinesOf(containerId: string, lines: seq<Entry>)
    ensures EmittedLines(LogLines(containerId, lines)) == lines
    decreases |lines|
  {
    if lines != [] {
      assert LogLines(containerId, lines)[1..] == LogLines(containerId, lines[1..]);
      LinesOf(containerId, lines[1..]);
    }
  }

  /** A poll that finds the container and whose log endpoint answers with the log from some point on. */
  predicate Answers(config: Config, containerId: string, input: Input, poll: DockerLogs.Poll) {
    && input.outcome.Found? && input.outcome.snapshot.containerId == containerId
    && input.response == Some(Wrapped(Response(poll))) && poll.limit == config.logLimit
  }

  /** A poll that finds the container but cannot read its log: a transport error, bad framing, or a line without a timestamp. */
  predicate LogFails(config: Config, previous: Option<Stored>, containerId: string, input: Input) {
    && input.outcome.Found? && input.outcome.snapshot.containerId == containerId
    && LogBatch(config, CursorFor(previous, containerId), input.response).None?
  }

  /** The container stays available; each poll fails to read its log or answers the next of `polls`. */
  predicate Follows(config: Config, previous: Option<Stored>, containerId: string, inputs: seq<Input>, polls: seq<DockerLogs.Poll>)
    decreases |inputs|
  {
    if inputs == [] then polls == []
    else
      var next := Some(Polled(config, previous, inputs[0]).stored);
      if LogFails(config, previous, containerId, inputs[0]) then Follows(config, next, containerId, inputs[1..], polls)
      else
        && polls != [] && Answers(config, containerId, inputs[0], polls[0])
        && Follows(config, next, containerId, inputs[1..], polls[1..])
  }

  /** The lines among the events of one poll are those of its batch. */
  lemma LinesSaid(config: Config, previous: Option<Stored>, input: Input, batch: Batch)
    requires config.includeLogs && input.outcome.Found?
    requires LogBatch(config, CursorFor(previous, input.outcome.snapshot.containerId), input.response) == Some(batch)
    ensures EmittedLines(Said(config, previous, input)) == batch.lines
  {
    var s := input.outcome.snapshot;
    LifecycleIsAboutContainer(AvailableIn(previous), s);
    LinesOf(s.containerId, batch.lines);
    var memory := MemoryEvents(MemoryHighIn(previous), MemoryHigh(config, s, MemoryHighIn(previous)), s.memoryBytes);
    var before := Lifecycle(AvailableIn(previous), s) + memory;
    var lines := LogLines(s.containerId, batch.lines);
    NoLinesBefore(Lifecycle(AvailableIn(previous), s), memory);
    assert Reported(config, previous, s, input.response) == before + lines;
    hide *;
    EmittedConcat(before, lines);
    BeatHasNoLines(config, previous, input);
  }

  lemma NoLinesBefore(lifecycle: seq<Body>, memory: seq<Body>)
    requires forall b :: b in lifecycle + memory ==> !b.LogLine?
    ensures EmittedLines(lifecycle + memory) == []
  {
    NoLines(lifecycle + memory);
  }

  lemma BeatHasNoLines(config: Config, previous: Option<Stored>, input: Input)
    requires input.outcome.Found?
    ensures EmittedLines(Said(config, previous, input)) == EmittedLines(Reported(config, previous, input.outcome.snapshot, input.response))
  {
    hide Reported;
    var s := input.outcome.snapshot;
    NoLines([Heartbeat(s.state, s.health, s.memoryBytes)]);
    NoLines([]);
  }

  lemma PollReadsLog(config: Config, previous: Option<Stored>, containerId: string, input: Input, poll: DockerLogs.Poll, emitted: seq<Entry>)
    requires config.includeLogs && Answers(config, containerId, input, poll)
    ensures var o := Polled(config, previous, input);
            DockerLogs.Observe(config.digest, Reader(CursorFor(previous, containerId), emitted), poll)
              == Reader(CursorFor(Some(o.stored), containerId), emitted + EmittedLines(Bodies(o.events)))
  {
    var cursor := CursorFor(previous, containerId);
    ScanSucceeds(config.digest, cursor, Response(poll), poll.limit);
    var batch := LogBatch(config, cursor, input.response).value;
    PollSays(config, previous, input);
    LinesSaid(config, previous, input, batch);
    hide Scan, Polled, EmittedLines, Said, MemoryHigh, DockerLogs.Stored, HeartbeatAfter;
  }

  /** A poll that cannot read the log emits no line and keeps the cursor. */
  lemma FailedReadKeepsCursor(config: Config, previous: Option<Stored>, containerId: string, input: Input)
    requires config.includeLogs && LogFails(config, previous, containerId, input)
    ensures var o := Polled(config, previous, input);
            EmittedLines(Bodies(o.events)) == [] && CursorFor(Some(o.stored), containerId) == CursorFor(previous, containerId)
  {
    var s := input.outcome.snapshot;
    PollSays(config, previous, input);
    LifecycleIsAboutContainer(AvailableIn(previous), s);
    hide Polled, Lifecycle, LogBatch, MemoryHigh, HeartbeatAfter;
    NoLines(Reported(config, previous, s, input.response));
    BeatHasNoLines(config, previous, input);
  }

  /**
   While one container stays available, the log lines among the observer's events are those the log
   cursor reads: each poll hands on the cursor the last one stored, also over polls that cannot read
   the log, so what is proved of polling the log holds of the events.
   */
  lemma {:induction false} LogLinesFollowCursor(config: Config, previous: Option<Stored>, containerId: string,
                                                inputs: seq<Input>, polls: seq<DockerLogs.Poll>, emitted: seq<Entry>)
    requires config.includeLogs && Follows(config, previous, containerId, inputs, polls)
    ensures var end := Run(config, previous, inputs);
            DockerLogs.ObserveAll(config.digest, Reader(CursorFor(previous, containerId), emitted), polls)
              == Reader(CursorFor(end.stored, containerId), emitted + EmittedLines(end.bodies))
    decreases |inputs|
  {
    hide *;
    if inputs == [] {
      FollowsNothing(config, previous, containerId, inputs, polls, emitted);
    } else {
      FollowsSplits(config, previous, containerId, inputs, polls);
      RunSplits(config, previous, inputs);
      var first := Polled(config, previous, inputs[0]);
      var lines := EmittedLines(Bodies(first.events));
      var rest := Run(config, Some(first.stored), inputs[1..]);
      EmittedConcat(Bodies(first.events), rest.bodies);
      if LogFails(config, previous, containerId, inputs[0]) {
        FailedReadKeepsCursor(config, previous, containerId, inputs[0]);
        LogLinesFollowCursor(config, Some(first.stored), containerId, inputs[1..], polls, emitted);
        assert emitted + ([] + EmittedLines(rest.bodies)) == emitted + EmittedLines(rest.bodies);
      } else {
        PollReadsLog(config, previous, containerId, inputs[0], polls[0], emitted);
        ObserveAllSplits(config.digest, Reader(CursorFor(previous, containerId), emitted), polls);
        LogLinesFollowCursor(config, Some(first.stored), containerId, inputs[1..], polls[1..], emitted + lines);
        assert (emitted + lines) + EmittedLines(rest.bodies) == emitted + (lines + EmittedLines(rest.bodies));
      }
    }
  }

  lemma FollowsNothing(config: Config, previous: Option<Stored>, containerId: string,
                       inputs: seq<Input>, polls: seq<DockerLogs.Poll>, emitted: seq<Entry>)
    requires Follows(config, previous, containerId, inputs, polls) && inputs == []
    ensures DockerLogs.ObserveAll(config.digest, Reader(CursorFor(previous, containerId), emitted), polls)
         == Reader(CursorFor(Run(config, previous, inputs).stored, containerId), emitted + EmittedLines(Run(config, previous, inputs).bodies))
  {
    assert emitted + [] == emitted;
  }

  lemma FollowsSplits(config: Config, previous: Option<Stored>, containerId: string, inputs: seq<Input>, polls: seq<DockerLogs.Poll>)
    requires Follows(config, previous, containerId, inputs, polls) && inputs != []
    ensures var next := Some(Polled(config, previous, inputs[0]).stored);
            if LogFails(config, previous, containerId, inputs[0]) then Follows(config, next, containerId, inputs[1..], polls)
            else
              && polls != [] && Answers(config, containerId, inputs[0], polls[0])
              && Follows(config, next, containerId, inputs[1..], polls[1..])
  {
    hide Answers, LogFails, Polled;
  }

  lemma RunSplits(config: Config, previous: Option<Stored>, inputs: seq<Input>)
    requires inputs != []
    ensures var first := Polled(config, previous, inputs[0]);
            var rest := Run(config, Some(first.stored), inputs[1..]);
            Run(config, previous, inputs) == Trace(Bodies(first.events) + rest.bodies, rest.stored)
  {
    hide Polled;
  }

  lemma ObserveAllSplits(digest: Digest, r: Reader, polls: seq<DockerLogs.Poll>)
    requires polls != []
    ensures ObserveAll(digest, r, polls) == ObserveAll(digest, DockerLogs.Observe(digest, r, polls[0]), polls[1..])
  {
    hide DockerLogs.Observe;
  }

  /**
   From the first poll of a container, and over polls that cannot read its log: its log lines among the
   events are a prefix of its log without repetitions.
   */
  lemma LogLinesAreExactlyOnce(config: Config, previous: Option<Stored>, containerId: string, inputs: seq<Input>, polls: seq<DockerLogs.Poll>)
    requires config.includeLogs && Follows(config, previous, containerId, inputs, polls)
    requires CursorFor(previous, containerId) == NO_CURSOR
    requires Injective(config.digest) && ServesAll(config.digest, [], START, polls)
    ensures EmittedLines(Run(config, previous, inputs).bodies) <= Dedup(LastLog([], polls))
  {
    LogLinesFollowCursor(config, previous, containerId, inputs, polls, []);
    NothingEmittedYet(config.digest);
    ObserveAllIsExact(config.digest, START, [], polls);
    hide Run, ObserveAll, EmittedLines, Follows, ServesAll, Dedup, LastLog, CursorAfter;
    assert [] + EmittedLines(Run(config, previous, inputs).bodies) == EmittedLines(Run(config, previous, inputs).bodies);
  }
}
