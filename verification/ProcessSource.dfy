/** Reducing process snapshots to events, with CPU and memory thresholds: `ProcessSourceObserver`. */
module ProcessSource {
  import opened Common
  import opened Hysteresis
  import opened Pacing

  datatype ProcessSnapshot = ProcessSnapshot(
    pid: nat, createTime: real, status: string, name: string, executable: Option<string>, cpuSeconds: real, rssBytes: nat,
    childCount: nat)

  datatype ErrorKind = Missing | InvalidPid | AccessDenied | Zombie

  /** What reading the PID file and the process gives. */
  datatype Outcome = Absent(error: ErrorKind, pid: Option<nat>) | Found(snapshot: ProcessSnapshot)

  datatype Presence =
    | Unavailable(error: ErrorKind, pid: Option<nat>)
    | Available(snapshot: ProcessSnapshot, cpuPercent: real, cpuHigh: bool, rssHigh: bool)

  datatype Stored = Stored(sequence: nat, observedAt: int, presence: Presence, heartbeatAt: int)

  datatype Config = Config(heartbeatSeconds: nat, cpuWarning: Option<real>, rssWarning: Option<nat>, includeChildren: bool)

  datatype Metric = Cpu | Rss

  datatype Body =
    | NotThere(kind: ErrorKind, at: Option<nat>)
    | ProcessAvailable(pid: nat, name: string, status: string)
    | ProcessRestarted(previousPid: nat, pid: nat, previousCreateTime: real, createTime: real)
    | StateChanged(from: string, to: string)
    | Threshold(cpuPercent: real, rssBytes: nat, crossed: seq<Metric>)
    | Recovered(cpuPercent: real, rssBytes: nat, recovered: seq<Metric>)
    | Heartbeat(cpuPercent: real, rssBytes: nat)

  datatype Observation = Observation(events: seq<Event<Body>>, stored: Stored)

  datatype Input = Input(now: int, outcome: Outcome)

  // ---- the specification of one poll ----

  function SequenceIn(previous: Option<Stored>): nat { if previous.Some? then previous.value.sequence else 0 }

  predicate AvailableIn(previous: Option<Stored>) {
    previous.Some? && previous.value.presence.Available?
  }

  function FlagIn(previous: Option<Stored>, m: Metric): bool {
    AvailableIn(previous) && if m.Cpu? then previous.value.presence.cpuHigh else previous.value.presence.rssHigh
  }

  /** `_cpu_percent`: CPU seconds over elapsed seconds since the last available snapshot. */
  function CpuPercent(previous: Option<Stored>, s: ProcessSnapshot, now: int): (percent: real)
    ensures percent >= 0.0
  {
    if !AvailableIn(previous) || now <= previous.value.observedAt then 0.0
    else
      var spent := (s.cpuSeconds - previous.value.presence.snapshot.cpuSeconds) / ((now - previous.value.observedAt) as real) * 100.0;
      if spent > 0.0 then spent else 0.0
  }

  function Limit(config: Config, m: Metric): Option<real> {
    match m
    case Cpu => config.cpuWarning
    case Rss => if config.rssWarning.Some? then Some(config.rssWarning.value as real) else None
  }

  function Sample(previous: Option<Stored>, s: ProcessSnapshot, now: int, m: Metric): Option<real> {
    match m
    case Cpu => Some(CpuPercent(previous, s, now))
    case Rss => Some(s.rssBytes as real)
  }

  predicate FlagAfterPoll(config: Config, previous: Option<Stored>, s: ProcessSnapshot, now: int, m: Metric) {
    High(Limit(config, m), Sample(previous, s, now, m), FlagIn(previous, m))
  }

  function MetricMark(config: Config, previous: Option<Stored>, s: ProcessSnapshot, now: int, m: Metric): Mark {
    MarkOf(FlagIn(previous, m), FlagAfterPoll(config, previous, s, now, m))
  }

  /** The metrics with a given mark, CPU first. */
  function Marked(cpu: Mark, rss: Mark, mark: Mark): seq<Metric> {
    (if cpu == mark then [Cpu] else []) + (if rss == mark then [Rss] else [])
  }

  function Lifecycle(previous: Option<Stored>, s: ProcessSnapshot): seq<Body> {
    if !AvailableIn(previous) then [ProcessAvailable(s.pid, s.name, s.status)]
    else
      var p := previous.value.presence.snapshot;
      if p.pid != s.pid || p.createTime != s.createTime then [ProcessRestarted(p.pid, s.pid, p.createTime, s.createTime)]
      else if p.status != s.status then [StateChanged(p.status, s.status)]
      else []
  }

  function Resources(cpuPercent: real, rssBytes: nat, cpu: Mark, rss: Mark): seq<Body> {
    (if Marked(cpu, rss, Crossed) != [] then [Threshold(cpuPercent, rssBytes, Marked(cpu, rss, Crossed))] else [])
    + (if Marked(cpu, rss, Cleared) != [] then [Recovered(cpuPercent, rssBytes, Marked(cpu, rss, Cleared))] else [])
  }

  function Reported(config: Config, previous: Option<Stored>, s: ProcessSnapshot, now: int): seq<Body> {
    Lifecycle(previous, s)
    + Resources(CpuPercent(previous, s, now), s.rssBytes, MetricMark(config, previous, s, now, Cpu), MetricMark(config, previous, s, now, Rss))
  }

  predicate SameTrouble(previous: Option<Stored>, error: ErrorKind) {
    previous.Some? && previous.value.presence.Unavailable? && previous.value.presence.error == error
  }

  function Said(config: Config, previous: Option<Stored>, input: Input): seq<Body> {
    match input.outcome
    case Absent(error, pid) => if SameTrouble(previous, error) then [] else [NotThere(error, pid)]
    case Found(s) =>
      var reported := Reported(config, previous, s, input.now);
      if reported == [] && (previous.None? || input.now - previous.value.heartbeatAt >= config.heartbeatSeconds) then
        [Heartbeat(CpuPercent(previous, s, input.now), s.rssBytes)]
      else reported
  }

  function PresenceAfter(config: Config, previous: Option<Stored>, input: Input): Presence {
    match input.outcome
    case Absent(error, pid) => Unavailable(error, pid)
    case Found(s) =>
      Available(s.(childCount := if config.includeChildren then s.childCount else 0), CpuPercent(previous, s, input.now),
                FlagAfterPoll(config, previous, s, input.now, Cpu), FlagAfterPoll(config, previous, s, input.now, Rss))
  }

  function Polled(config: Config, previous: Option<Stored>, input: Input): Observation {
    var bodies := Said(config, previous, input);
    Observation(
      Number(SequenceIn(previous), bodies),
      Stored(SequenceIn(previous) + |bodies|, input.now, PresenceAfter(config, previous, input),
             if previous.None? || (input.outcome.Found? && bodies != []) then input.now else previous.value.heartbeatAt))
  }

  // ---- the observer ----

  method ReportLifecycle(previous: Option<Stored>, s: ProcessSnapshot) returns (bodies: seq<Body>)
    ensures bodies == Lifecycle(previous, s)
  {
    var available := AvailableIn(previous);
    var changed := available
                   && (previous.value.presence.snapshot.pid != s.pid || previous.value.presence.snapshot.createTime != s.createTime);
    bodies := [];
    if !available {
      bodies := bodies + [ProcessAvailable(s.pid, s.name, s.status)];
    } else if changed {
      var p := previous.value.presence.snapshot;
      bodies := bodies + [ProcessRestarted(p.pid, s.pid, p.createTime, s.createTime)];
    } else if previous.value.presence.snapshot.status != s.status {
      bodies := bodies + [StateChanged(previous.value.presence.snapshot.status, s.status)];
    }
  }

  /** The two lists of metrics and the events they give. */
  method ReportResources(cpuPercent: real, rssBytes: nat, wasCpu: bool, cpuHigh: bool, wasRss: bool, rssHigh: bool)
    returns (bodies: seq<Body>)
    ensures bodies == Resources(cpuPercent, rssBytes, MarkOf(wasCpu, cpuHigh), MarkOf(wasRss, rssHigh))
  {
    var crossed: seq<Metric> := [];
    var recovered: seq<Metric> := [];
    if cpuHigh && !wasCpu { crossed := crossed + [Cpu]; }
    if rssHigh && !wasRss { crossed := crossed + [Rss]; }
    if wasCpu && !cpuHigh { recovered := recovered + [Cpu]; }
    if wasRss && !rssHigh { recovered := recovered + [Rss]; }
    assert crossed == Marked(MarkOf(wasCpu, cpuHigh), MarkOf(wasRss, rssHigh), Crossed);
    assert recovered == Marked(MarkOf(wasCpu, cpuHigh), MarkOf(wasRss, rssHigh), Cleared);
    hide Marked;
    bodies := [];
    if crossed != [] { bodies := bodies + [Threshold(cpuPercent, rssBytes, crossed)]; }
    if recovered != [] { bodies := bodies + [Recovered(cpuPercent, rssBytes, recovered)]; }
  }

  /** `observe`. */
  method Observe(config: Config, previous: Option<Stored>, input: Input) returns (observation: Observation)
    ensures observation == Polled(config, previous, input)
  {
    hide Lifecycle, Resources, CpuPercent, High, Limit;
    var sequence := SequenceIn(previous);
    var events: seq<Event<Body>> := [];
    match input.outcome {
      case Absent(error, pid) =>
        if !SameTrouble(previous, error) {
          sequence := sequence + 1;
          events := events + [Event(sequence, NotThere(error, pid))];
        }
        observation := Observation(events, Stored(sequence, input.now, Unavailable(error, pid),
                                                  if previous.Some? then previous.value.heartbeatAt else input.now));
      case Found(s) =>
        var bodies := ReportLifecycle(previous, s);
        var cpuPercent := CpuPercent(previous, s, input.now);
        var cpuHigh := FlagAfterPoll(config, previous, s, input.now, Cpu);
        var rssHigh := FlagAfterPoll(config, previous, s, input.now, Rss);
        var more := ReportResources(cpuPercent, s.rssBytes, FlagIn(previous, Cpu), cpuHigh, FlagIn(previous, Rss), rssHigh);
        bodies := bodies + more;
        assert bodies == Reported(config, previous, s, input.now);
        hide Reported;
        if bodies == [] && (previous.None? || input.now - previous.value.heartbeatAt >= config.heartbeatSeconds) {
          bodies := [Heartbeat(cpuPercent, s.rssBytes)];
        }
        events := Number(sequence, bodies);
        sequence := sequence + |events|;
        var heartbeatAt := if events != [] || previous.None? then input.now else previous.value.heartbeatAt;
        observation := Observation(
          events,
          Stored(sequence, input.now,
                 Available(s.(childCount := if config.includeChildren then s.childCount else 0), cpuPercent, cpuHigh, rssHigh),
                 heartbeatAt));
    }
  }

  lemma PollIsConsecutive(config: Config, previous: Option<Stored>, input: Input)
    ensures var o := Polled(config, previous, input);
            Consecutive(SequenceIn(previous), o.events, o.stored.sequence)
  {
    hide Said;
  }

  // ---- exactly what a poll says ----

  /** The available process a poll compares with: the one stored by the poll before. */
  function Before(previous: Option<Stored>): Option<ProcessSnapshot> {
    match previous
    case Some(Stored(_, _, Available(s, _, _, _), _)) => Some(s)
    case _ => None
  }

  predicate HighBefore(previous: Option<Stored>, m: Metric) {
    match previous
    case Some(Stored(_, _, Available(_, _, cpu, rss), _)) => if m.Cpu? then cpu else rss
    case _ => false
  }

  /** `percent` is the CPU time spent since the poll before, over the time since then; nothing where that cannot be told. */
  predicate IsCpuPercent(percent: real, previous: Option<Stored>, s: ProcessSnapshot, now: int) {
    match previous
    case Some(Stored(_, observedAt, Available(p, _, _, _), _)) =>
      if now <= observedAt || s.cpuSeconds <= p.cpuSeconds then percent == 0.0
      else percent * ((now - observedAt) as real) == (s.cpuSeconds - p.cpuSeconds) * 100.0
    case _ => percent == 0.0
  }

  lemma CpuPercentIsShare(previous: Option<Stored>, s: ProcessSnapshot, now: int)
    ensures IsCpuPercent(CpuPercent(previous, s, now), previous, s, now)
  {
    if AvailableIn(previous) && now > previous.value.observedAt {
      ShareOf(s.cpuSeconds - previous.value.presence.snapshot.cpuSeconds, (now - previous.value.observedAt) as real);
    }
  }

  lemma ShareOf(spent: real, elapsed: real)
    requires elapsed > 0.0
    ensures spent / elapsed * 100.0 * elapsed == spent * 100.0
    ensures spent / elapsed * 100.0 > 0.0 <==> spent > 0.0
  {
    assert spent / elapsed * elapsed == spent;
    var share := spent / elapsed;
    assert share * elapsed == spent;
    assert share > 0.0 <==> spent > 0.0;
  }

  predicate AtLimit(limit: Option<real>, value: real) { limit.Some? && value >= limit.value }

  predicate NearLimit(limit: Option<real>, value: real) { limit.Some? && value >= limit.value * 0.9 }

  function LimitOf(config: Config, m: Metric): Option<real> {
    if m.Cpu? then config.cpuWarning else if config.rssWarning.Some? then Some(config.rssWarning.value as real) else None
  }

  function ValueOf(percent: real, rssBytes: nat, m: Metric): real { if m.Cpu? then percent else rssBytes as real }

  predicate Crosses(config: Config, previous: Option<Stored>, percent: real, rssBytes: nat, m: Metric) {
    !HighBefore(previous, m) && AtLimit(LimitOf(config, m), ValueOf(percent, rssBytes, m))
  }

  predicate Clears(config: Config, previous: Option<Stored>, percent: real, rssBytes: nat, m: Metric) {
    HighBefore(previous, m) && !NearLimit(LimitOf(config, m), ValueOf(percent, rssBytes, m))
  }

  /** What a poll has reason to say, besides a heartbeat. */
  predicate Justified(config: Config, previous: Option<Stored>, input: Input, percent: real, body: Body) {
    match input.outcome
    case Absent(error, pid) =>
      body == NotThere(error, pid) && (previous.Some? && previous.value.presence.Unavailable? ==> previous.value.presence.error != error)
    case Found(s) =>
      match body
      case ProcessAvailable(pid, name, status) => Before(previous).None? && pid == s.pid && name == s.name && status == s.status
      case ProcessRestarted(was, pid, created, creates) =>
        Before(previous).Some? && was == Before(previous).value.pid && pid == s.pid
        && created == Before(previous).value.createTime && creates == s.createTime && (was != pid || created != creates)
      case StateChanged(a, b) =>
        Before(previous).Some? && Before(previous).value.pid == s.pid && Before(previous).value.createTime == s.createTime
        && a == Before(previous).value.status && b == s.status && a != b
      case Threshold(cpu, rss, crossed) =>
        cpu == percent && rss == s.rssBytes && crossed != []
        && crossed == (if Crosses(config, previous, percent, s.rssBytes, Cpu) then [Cpu] else [])
                      + (if Crosses(config, previous, percent, s.rssBytes, Rss) then [Rss] else [])
      case Recovered(cpu, rss, cleared) =>
        cpu == percent && rss == s.rssBytes && cleared != []
        && cleared == (if Clears(config, previous, percent, s.rssBytes, Cpu) then [Cpu] else [])
                      + (if Clears(config, previous, percent, s.rssBytes, Rss) then [Rss] else [])
      case _ => false
  }

  lemma MarkMeans(config: Config, previous: Option<Stored>, s: ProcessSnapshot, now: int, m: Metric)
    ensures var percent := CpuPercent(previous, s, now);
            && (MetricMark(config, previous, s, now, m) == Crossed <==> Crosses(config, previous, percent, s.rssBytes, m))
            && (MetricMark(config, previous, s, now, m) == Cleared <==> Clears(config, previous, percent, s.rssBytes, m))
  {
    hide CpuPercent;
  }

  lemma LifecycleMeans(config: Config, previous: Option<Stored>, input: Input, percent: real, body: Body)
    requires input.outcome.Found?
    ensures body in Lifecycle(previous, input.outcome.snapshot) <==>
              (body.ProcessAvailable? || body.ProcessRestarted? || body.StateChanged?) && Justified(config, previous, input, percent, body)
    ensures |Lifecycle(previous, input.outcome.snapshot)| <= 1
  {
    hide Crosses, Clears;
  }

  lemma ResourcesMean(config: Config, previous: Option<Stored>, input: Input, cpu: Mark, rss: Mark, percent: real, body: Body)
    requires input.outcome.Found?
    requires var n := input.outcome.snapshot.rssBytes;
             && (cpu == Crossed <==> Crosses(config, previous, percent, n, Cpu)) && (rss == Crossed <==> Crosses(config, previous, percent, n, Rss))
             && (cpu == Cleared <==> Clears(config, previous, percent, n, Cpu)) && (rss == Cleared <==> Clears(config, previous, percent, n, Rss))
    ensures body in Resources(percent, input.outcome.snapshot.rssBytes, cpu, rss) <==>
              (body.Threshold? || body.Recovered?) && Justified(config, previous, input, percent, body)
  {
    hide Crosses, Clears, HighBefore;
  }

  lemma ReportedMeans(config: Config, previous: Option<Stored>, input: Input, body: Body)
    requires input.outcome.Found?
    ensures var s := input.outcome.snapshot;
            body in Reported(config, previous, s, input.now) <==> Justified(config, previous, input, CpuPercent(previous, s, input.now), body)
  {
    hide CpuPercent, MetricMark, Resources, Lifecycle, Crosses, Clears;
    var s := input.outcome.snapshot;
    var percent := CpuPercent(previous, s, input.now);
    MarkMeans(config, previous, s, input.now, Cpu);
    MarkMeans(config, previous, s, input.now, Rss);
    LifecycleMeans(config, previous, input, percent, body);
    ResourcesMean(config, previous, input, MetricMark(config, previous, s, input.now, Cpu), MetricMark(config, previous, s, input.now, Rss), percent, body);
  }

  /**
   A poll says exactly what the process stored by the poll before, the flags of its metrics and the process
   found now justify, with the values of these; and if that is nothing and the last sign of life is
   heartbeat_seconds old, exactly one heartbeat. The CPU share it speaks of is that of the time since then.
   */
  lemma PollSaysWhatIsJustified(config: Config, previous: Option<Stored>, input: Input, body: Body) returns (percent: real)
    ensures input.outcome.Found? ==> IsCpuPercent(percent, previous, input.outcome.snapshot, input.now)
    ensures var bodies := Bodies(Polled(config, previous, input).events);
            var due := input.outcome.Found? && (previous.Some? ==> input.now - previous.value.heartbeatAt >= config.heartbeatSeconds);
            if due && (forall b :: !Justified(config, previous, input, percent, b)) then
              bodies == [Heartbeat(percent, input.outcome.snapshot.rssBytes)]
            else body in bodies <==> Justified(config, previous, input, percent, body)
  {
    percent := 0.0;
    PollSays(config, previous, input);
    if input.outcome.Found? {
      var s := input.outcome.snapshot;
      percent := CpuPercent(previous, s, input.now);
      CpuPercentIsShare(previous, s, input.now);
      var reported := Reported(config, previous, s, input.now);
      hide Justified, Reported, CpuPercent, IsCpuPercent, Polled;
      forall b ensures b in reported <==> Justified(config, previous, input, percent, b) { ReportedMeans(config, previous, input, b); }
      if reported != [] { assert reported[0] in reported; }
    } else {
      hide Polled;
    }
  }

  /** Lifecycle comes first, then thresholds, then recoveries, each at most once. */
  lemma PollIsOrdered(config: Config, previous: Option<Stored>, input: Input)
    ensures var bodies := Bodies(Polled(config, previous, input).events);
            && |bodies| <= 3
            && (forall i, j :: 0 <= i < j < |bodies| ==> !bodies[i].Recovered? && (bodies[j].Threshold? || bodies[j].Recovered?))
            && (forall i, j :: 0 <= i < j < |bodies| && bodies[i].Threshold? ==> bodies[j].Recovered?)
  {
    PollSays(config, previous, input);
    hide Polled, CpuPercent, MetricMark;
  }

  /** A poll remembers what it found, when, and which metrics are high; any event about a process that is there is a sign of life. */
  lemma PollRemembers(config: Config, previous: Option<Stored>, input: Input)
    ensures var o := Polled(config, previous, input);
            && o.stored.observedAt == input.now
            && (match input.outcome
                case Absent(error, pid) => o.stored.presence == Unavailable(error, pid)
                case Found(s) =>
                  var percent := CpuPercent(previous, s, input.now);
                  && o.stored.presence.Available? && o.stored.presence.cpuPercent == percent
                  && o.stored.presence.snapshot == s.(childCount := if config.includeChildren then s.childCount else 0)
                  && (forall m :: HighBefore(Some(o.stored), m) <==>
                        if HighBefore(previous, m) then NearLimit(LimitOf(config, m), ValueOf(percent, s.rssBytes, m))
                        else AtLimit(LimitOf(config, m), ValueOf(percent, s.rssBytes, m))))
            && o.stored.heartbeatAt == (if previous.None? || (input.outcome.Found? && o.events != []) then input.now
                                        else previous.value.heartbeatAt)
  {
    hide Said, CpuPercent;
    assert Polled(config, previous, input).events == [] <==> Said(config, previous, input) == [];
  }

  // ---- runs and hysteresis ----

  datatype Trace = Trace(polls: seq<seq<Body>>, stored: Option<Stored>)

  /** What each poll of a run says. */
  function Run(config: Config, previous: Option<Stored>, inputs: seq<Input>): (trace: Trace)
    ensures |trace.polls| == |inputs|
    decreases |inputs|
  {
    if inputs == [] then Trace([], previous)
    else
      var first := Polled(config, previous, inputs[0]);
      var rest := Run(config, Some(first.stored), inputs[1..]);
      Trace([Bodies(first.events)] + rest.polls, rest.stored)
  }

  predicate AllFound(inputs: seq<Input>) {
    forall i :: 0 <= i < |inputs| ==> inputs[i].outcome.Found?
  }

  /** The values of a metric that a run of available polls measures. */
  function Samples(config: Config, previous: Option<Stored>, inputs: seq<Input>, m: Metric): (samples: seq<Option<real>>)
    requires AllFound(inputs)
    ensures |samples| == |inputs|
    decreases |inputs|
  {
    if inputs == [] then []
    else
      [Sample(previous, inputs[0].outcome.snapshot, inputs[0].now, m)]
      + Samples(config, Some(Polled(config, previous, inputs[0]).stored), inputs[1..], m)
  }

  /** What the events of one poll say about a metric. */
  function MarkSaid(bodies: seq<Body>, m: Metric): Mark {
    if exists b :: b in bodies && b.Threshold? && m in b.crossed then Crossed
    else if exists b :: b in bodies && b.Recovered? && m in b.recovered then Cleared
    else Quiet
  }

  function MarksSaid(polls: seq<seq<Body>>, m: Metric): seq<Mark> {
    seq(|polls|, i requires 0 <= i < |polls| => MarkSaid(polls[i], m))
  }

  lemma ResourcesSayMarks(first: seq<Body>, cpuPercent: real, rssBytes: nat, cpu: Mark, rss: Mark, m: Metric)
    requires forall b :: b in first ==> !b.Threshold? && !b.Recovered?
    ensures MarkSaid(first + Resources(cpuPercent, rssBytes, cpu, rss), m) == if m.Cpu? then cpu else rss
  {
    MarkedMeans(cpu, rss, m);
    hide Marked;
    var resources := Resources(cpuPercent, rssBytes, cpu, rss);
    var bodies := first + resources;
    var crossed, cleared := Marked(cpu, rss, Crossed), Marked(cpu, rss, Cleared);
    assert forall b :: b in bodies <==> b in first || b in resources;
    assert forall b :: b in resources && b.Threshold? ==> b.crossed == crossed;
    assert forall b :: b in resources && b.Recovered? ==> b.recovered == cleared;
    assert crossed != [] ==> Threshold(cpuPercent, rssBytes, crossed) in resources;
    assert cleared != [] ==> Recovered(cpuPercent, rssBytes, cleared) in resources;
  }

  lemma MarkedMeans(cpu: Mark, rss: Mark, m: Metric)
    ensures forall mark: Mark :: m in Marked(cpu, rss, mark) <==> mark == if m.Cpu? then cpu else rss
  {
  }

  lemma PollSaysMark(config: Config, previous: Option<Stored>, input: Input, m: Metric)
    requires input.outcome.Found?
    ensures MarkSaid(Said(config, previous, input), m) == MetricMark(config, previous, input.outcome.snapshot, input.now, m)
  {
    hide MarkSaid, Resources, MetricMark, CpuPercent;
    var s := input.outcome.snapshot;
    var percent := CpuPercent(previous, s, input.now);
    var cpu, rss := MetricMark(config, previous, s, input.now, Cpu), MetricMark(config, previous, s, input.now, Rss);
    ResourcesSayMarks(Lifecycle(previous, s), percent, s.rssBytes, cpu, rss, m);
    NothingToSay(percent, s.rssBytes);
    ResourcesSayMarks([], percent, s.rssBytes, Quiet, Quiet, m);
    assert forall b: seq<Body> :: b + [] == b;
    ResourcesSayMarks([Heartbeat(percent, s.rssBytes)], percent, s.rssBytes, Quiet, Quiet, m);
  }

  lemma NothingToSay(cpuPercent: real, rssBytes: nat)
    ensures Resources(cpuPercent, rssBytes, Quiet, Quiet) == []
  {
  }

  lemma PollSays(config: Config, previous: Option<Stored>, input: Input)
    ensures var o := Polled(config, previous, input);
            && Bodies(o.events) == Said(config, previous, input)
            && o.stored.presence == PresenceAfter(config, previous, input)
  {
    hide Said, PresenceAfter;
  }

  /**
   Within an available epoch, whatever restarts it contains, the threshold and recovered events of
   each metric are the marks of its samples, so all laws of marks hold of them.
   */
  lemma {:induction false} EventsFollowSamples(config: Config, previous: Option<Stored>, inputs: seq<Input>, m: Metric)
    requires AllFound(inputs)
    ensures MarksSaid(Run(config, previous, inputs).polls, m)
         == Marks(Limit(config, m), FlagIn(previous, m), Samples(config, previous, inputs, m))
    ensures FlagIn(Run(config, previous, inputs).stored, m)
         == FlagAfter(Limit(config, m), FlagIn(previous, m), Samples(config, previous, inputs, m))
    decreases |inputs|
  {
    if inputs == [] {
    } else {
      PollSays(config, previous, inputs[0]);
      PollSaysMark(config, previous, inputs[0], m);
      PollSetsFlag(config, previous, inputs[0], m);
      UnfoldOnce(config, previous, inputs, m);
      hide *;
      var first := Polled(config, previous, inputs[0]);
      EventsFollowSamples(config, Some(first.stored), inputs[1..], m);
      MarksUnfold(Limit(config, m), FlagIn(previous, m), Samples(config, previous, inputs, m));
    }
  }

  lemma PollSetsFlag(config: Config, previous: Option<Stored>, input: Input, m: Metric)
    requires input.outcome.Found?
    ensures FlagIn(Some(Polled(config, previous, input).stored), m)
         == FlagAfterPoll(config, previous, input.outcome.snapshot, input.now, m)
         == High(Limit(config, m), Sample(previous, input.outcome.snapshot, input.now, m), FlagIn(previous, m))
    ensures MetricMark(config, previous, input.outcome.snapshot, input.now, m)
         == MarkOf(FlagIn(previous, m), FlagIn(Some(Polled(config, previous, input).stored), m))
  {
    hide Said, High, CpuPercent, Limit;
  }

  lemma UnfoldOnce(config: Config, previous: Option<Stored>, inputs: seq<Input>, m: Metric)
    requires AllFound(inputs) && inputs != []
    ensures inputs[0].outcome.Found? && AllFound(inputs[1..])
    ensures var first := Polled(config, previous, inputs[0]);
            var rest := Run(config, Some(first.stored), inputs[1..]);
            && Run(config, previous, inputs).stored == rest.stored
            && MarksSaid(Run(config, previous, inputs).polls, m) == [MarkSaid(Bodies(first.events), m)] + MarksSaid(rest.polls, m)
            && Samples(config, previous, inputs, m)
               == [Sample(previous, inputs[0].outcome.snapshot, inputs[0].now, m)] + Samples(config, Some(first.stored), inputs[1..], m)
  {
    hide Polled, MarkSaid, Sample;
  }

  /** So in an epoch the events of each metric have hysteresis, and start with a threshold. */
  lemma EventsHaveHysteresis(config: Config, previous: Option<Stored>, inputs: seq<Input>, m: Metric)
    requires AllFound(inputs) && !AvailableIn(previous)
    ensures HasHysteresis(Limit(config, m), false, Samples(config, previous, inputs, m), MarksSaid(Run(config, previous, inputs).polls, m))
  {
    EventsFollowSamples(config, previous, inputs, m);
    MarksHaveHysteresis(Limit(config, m), false, Samples(config, previous, inputs, m));
  }

  // ---- how many events ----

  function Nows(inputs: seq<Input>): (nows: seq<int>)
    ensures |nows| == |inputs| && forall i :: 0 <= i < |inputs| ==> nows[i] == inputs[i].now
  {
    seq(|inputs|, i requires 0 <= i < |inputs| => inputs[i].now)
  }

  function OutcomeChanges(last: Outcome, inputs: seq<Input>): nat
    decreases |inputs|
  {
    if inputs == [] then 0
    else (if inputs[0].outcome != last then 1 else 0) + OutcomeChanges(inputs[0].outcome, inputs[1..])
  }

  function Volume(polls: seq<seq<Body>>): nat {
    if polls == [] then 0 else |polls[0]| + Volume(polls[1..])
  }

  predicate Beats(config: Config, previous: Option<Stored>, input: Input) {
    && input.outcome.Found?
    && Reported(config, previous, input.outcome.snapshot, input.now) == []
    && (previous.None? || input.now - previous.value.heartbeatAt >= config.heartbeatSeconds)
  }

  /** When heartbeats are emitted. */
  function Heartbeats(config: Config, previous: Option<Stored>, inputs: seq<Input>): seq<int>
    decreases |inputs|
  {
    if inputs == [] then []
    else
      (if Beats(config, previous, inputs[0]) then [inputs[0].now] else [])
      + Heartbeats(config, Some(Polled(config, previous, inputs[0]).stored), inputs[1..])
  }

  predicate ValidConfig(config: Config) {
    (config.cpuWarning.Some? ==> config.cpuWarning.value > 0.0) && (config.rssWarning.Some? ==> config.rssWarning.value > 0)
  }

  /** The state left by a poll with this outcome: the memory flag is one the snapshot confirms. */
  predicate Follows(config: Config, s: Stored, last: Outcome) {
    match last
    case Absent(error, pid) => s.presence == Unavailable(error, pid)
    case Found(snapshot) =>
      && s.presence.Available? && s.presence.snapshot == snapshot.(childCount := s.presence.snapshot.childCount)
      && High(Limit(config, Rss), Some(snapshot.rssBytes as real), s.presence.rssHigh) == s.presence.rssHigh
  }

  lemma PollFollows(config: Config, previous: Option<Stored>, input: Input)
    requires ValidConfig(config)
    ensures Follows(config, Polled(config, previous, input).stored, input.outcome)
  {
    PollSays(config, previous, input);
    hide Polled, Said, CpuPercent, High;
    if input.outcome.Found? {
      RepeatIsQuiet(Limit(config, Rss), Some(input.outcome.snapshot.rssBytes as real), FlagIn(previous, Rss));
    }
  }

  /** A raised CPU flag is one event still to come. */
  function Pending(s: Stored): nat {
    if s.presence.Available? && s.presence.cpuHigh then 1 else 0
  }

  lemma ReportedVolume(config: Config, previous: Option<Stored>, s: ProcessSnapshot, now: int)
    ensures |Reported(config, previous, s, now)| <= 3
  {
    hide MetricMark, CpuPercent;
  }

  /** The same snapshot again: the process spent no CPU, so at most its CPU recovers. */
  lemma SameAgain(config: Config, previous: Stored, s: ProcessSnapshot, now: int)
    requires ValidConfig(config) && Follows(config, previous, Found(s))
    ensures !FlagAfterPoll(config, Some(previous), s, now, Cpu)
    ensures |Reported(config, Some(previous), s, now)| <= Pending(previous)
  {
    assert CpuPercent(Some(previous), s, now) == 0.0;
    assert MetricMark(config, Some(previous), s, now, Rss) == Quiet;
    assert MetricMark(config, Some(previous), s, now, Cpu) == if previous.presence.cpuHigh then Cleared else Quiet;
  }

  lemma PollVolume(config: Config, previous: Stored, last: Outcome, input: Input)
    requires ValidConfig(config) && Follows(config, previous, last)
    ensures |Said(config, Some(previous), input)| + Pending(Polled(config, Some(previous), input).stored)
         <= Pending(previous) + (if input.outcome != last then 4 else 0) + (if Beats(config, Some(previous), input) then 1 else 0)
  {
    PollSays(config, Some(previous), input);
    if input.outcome.Found? {
      ReportedVolume(config, Some(previous), input.outcome.snapshot, input.now);
      if input.outcome == last { SameAgain(config, previous, input.outcome.snapshot, input.now); }
    }
    hide Polled, Reported, FlagAfterPoll, CpuPercent;
  }

  /** A run after a first poll emits at most 4 events for each change of outcome, plus its heartbeats and one recovery. */
  lemma {:induction false} ChangesBoundVolume(config: Config, previous: Stored, last: Outcome, inputs: seq<Input>)
    requires ValidConfig(config) && Follows(config, previous, last)
    ensures Volume(Run(config, Some(previous), inputs).polls)
         <= Pending(previous) + 4 * OutcomeChanges(last, inputs) + |Heartbeats(config, Some(previous), inputs)|
    decreases |inputs|
  {
    if inputs != [] {
      PollSays(config, Some(previous), inputs[0]);
      PollVolume(config, previous, last, inputs[0]);
      PollFollows(config, Some(previous), inputs[0]);
      VolumeUnfolds(config, previous, last, inputs);
      hide *;
      ChangesBoundVolume(config, Polled(config, Some(previous), inputs[0]).stored, inputs[0].outcome, inputs[1..]);
    }
  }

  lemma VolumeUnfolds(config: Config, previous: Stored, last: Outcome, inputs: seq<Input>)
    requires inputs != []
    ensures var first := Polled(config, Some(previous), inputs[0]);
            && Volume(Run(config, Some(previous), inputs).polls)
               == |Bodies(first.events)| + Volume(Run(config, Some(first.stored), inputs[1..]).polls)
            && OutcomeChanges(last, inputs) == (if inputs[0].outcome != last then 1 else 0) + OutcomeChanges(inputs[0].outcome, inputs[1..])
            && |Heartbeats(config, Some(previous), inputs)|
               == (if Beats(config, Some(previous), inputs[0]) then 1 else 0) + |Heartbeats(config, Some(first.stored), inputs[1..])|
  {
    hide Polled, Beats;
    var first := Polled(config, Some(previous), inputs[0]);
    var rest := Run(config, Some(first.stored), inputs[1..]).polls;
    assert ([Bodies(first.events)] + rest)[1..] == rest;
  }

  lemma PollPace(config: Config, previous: Stored, input: Input)
    ensures var after := Polled(config, Some(previous), input).stored.heartbeatAt;
            && after in {input.now, previous.heartbeatAt}
            && (Beats(config, Some(previous), input) ==> input.now >= previous.heartbeatAt + config.heartbeatSeconds && after == input.now)
  {
    hide Reported;
  }

  /** With a clock that does not run backwards heartbeats are at least heartbeat_seconds apart, across outages too. */
  lemma {:induction false} HeartbeatsAreSpaced(config: Config, previous: Stored, from: int, inputs: seq<Input>)
    requires previous.heartbeatAt <= from && SpacedBy(0, from, Nows(inputs))
    ensures var beats := Heartbeats(config, Some(previous), inputs);
            && SpacedBy(config.heartbeatSeconds, previous.heartbeatAt, beats)
            && Last(previous.heartbeatAt, beats) <= Last(from, Nows(inputs))
    decreases |inputs|
  {
    if inputs != [] {
      PollPace(config, previous, inputs[0]);
      hide Polled, Said, Beats;
      var now, next := inputs[0].now, Polled(config, Some(previous), inputs[0]).stored;
      assert Nows(inputs)[1..] == Nows(inputs[1..]);
      HeartbeatsAreSpaced(config, next, now, inputs[1..]);
      var later := Heartbeats(config, Some(next), inputs[1..]);
      LastOfRest(from, Nows(inputs));
      if Beats(config, Some(previous), inputs[0]) {
        var beats := [now] + later;
        assert beats[1..] == later;
        LastOfRest(previous.heartbeatAt, beats);
      } else {
        assert [] + later == later;
        SpacedLater(config.heartbeatSeconds, previous.heartbeatAt, next.heartbeatAt, later);
      }
    }
  }

  /** Together: the volume is bounded by the changes of outcome and by elapsed time over heartbeat_seconds. */
  lemma {:induction false} VolumeIsBounded(config: Config, previous: Stored, last: Outcome, inputs: seq<Input>)
    requires ValidConfig(config) && Follows(config, previous, last) && SpacedBy(0, previous.heartbeatAt, Nows(inputs))
    ensures (Volume(Run(config, Some(previous), inputs).polls) - Pending(previous) - 4 * OutcomeChanges(last, inputs)) * config.heartbeatSeconds
         <= Last(previous.heartbeatAt, Nows(inputs)) - previous.heartbeatAt
  {
    hide *;
    ChangesBoundVolume(config, previous, last, inputs);
    HeartbeatsAreSpaced(config, previous, previous.heartbeatAt, inputs);
    var beats := Heartbeats(config, Some(previous), inputs);
    SpacedAtMost(config.heartbeatSeconds, previous.heartbeatAt, beats,
                 Volume(Run(config, Some(previous), inputs).polls) - Pending(previous) - 4 * OutcomeChanges(last, inputs));
  }
}
