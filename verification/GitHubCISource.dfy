/**
 Watching the CI of the checked-out head: `GitHubCISourceObserver.observe` as a state-changing method
 and as a function of what was stored, over arbitrary runs of polls.
 */
module GitHubCISource {
  import opened Common
  import opened Ordering
  import opened Pacing
  import opened GitHubCIProvider

  datatype Config = Config(providerId: string, repository: string, heartbeatSeconds: nat, maxFailed: nat)

  /** What the stored state of the Git source says. */
  datatype GitView = NoGitState | GitState(available: bool, headSha: Option<string>)

  datatype CIState = CIState(
    available: Option<bool>, blocked: bool, errorKind: Option<string>,
    backoffAttempt: nat, backoffUntil: Option<int>,
    headSha: Option<string>, snapshot: Option<Snapshot>, failedIdentities: set<string>,
    cache: Cache, notModified: bool, lastHeartbeatAt: Option<int>)

  /** The state of a source that was never observed. */
  const NOTHING := CIState(None, false, None, 0, None, None, None, {}, EMPTY_CACHE, false, None)

  datatype Stored = Stored(sequence: nat, state: CIState)

  datatype Body =
    | BlockedMissingGitState
    | RateLimited
    | AuthFailed
    | Unavailable(kind: string)
    | Available(summary: Summary)
    | Recovered(summary: Summary)
    | HeadChanged(before: Option<string>, current: string)
    | StatusChanged(from: Option<Overall>, to: Overall, head: string)
    | CheckFailed(head: string, check: FailedCheck)
    | CheckRecovered(identity: string, head: string)
    | NoChecksFound(head: string)
    | Heartbeat(summary: Summary)

  datatype Summary = Summary(head: string, overall: Overall, total: nat, failure: nat, pending: nat)

  datatype Fingerprint = Fingerprint(providerId: string, repository: string, head: string, name: string, conclusion: string)

  datatype Observation = Observation(events: seq<Event<Body>>, stored: Stored, incidents: seq<(Fingerprint, Event<Body>)>)

  /** What the world answers if the provider is asked: a transport error, another exception, or both resources. */
  datatype World =
    | Failing(kind: string, reset: Option<int>)
    | Raising
    | Serving(checks: Representation<seq<RawRun>>, status: Representation<LegacySummary>, repeatsTag: bool)

  function SummaryOf(s: Snapshot): Summary { Summary(s.headSha, s.overall, s.total, s.failure, s.pending) }

  function Head(git: GitView): Option<string> {
    if git.GitState? && git.available && git.headSha.Some? && |git.headSha.value| == 40 then git.headSha else None
  }

  function Identity(head: string, name: string, conclusion: string): string {
    head + ":" + name + ":" + conclusion
  }

  function FailedIdentities(head: string, checks: seq<FailedCheck>): set<string> {
    set i | 0 <= i < |checks| :: Identity(head, checks[i].name, checks[i].conclusion)
  }

  function Pow2(n: nat): nat { if n == 0 then 1 else 2 * Pow2(n - 1) }

  /** The delay after the `attempt`-th failure of one kind in a row. */
  function Delay(attempt: nat): int { Min(60 * Pow2(Max(0, attempt - 1)), 900) }

  function BackoffUntil(now: int, kind: string, reset: Option<int>, attempt: nat): int {
    if kind == "rate_limited" && reset.Some? && reset.value > now then reset.value
    else if kind == "auth_failed" then now + 300
    else now + Delay(attempt)
  }

  // ---- the specification of one poll ----

  function OverallIn(state: CIState): Option<Overall> {
    if state.snapshot.Some? then Some(state.snapshot.value.overall) else None
  }

  function NewFailures(head: string, known: set<string>, checks: seq<FailedCheck>): seq<Body> {
    if checks == [] then []
    else
      var check := checks[|checks| - 1];
      NewFailures(head, known, checks[..|checks| - 1])
      + (if Identity(head, check.name, check.conclusion) in known then [] else [CheckFailed(head, check)])
  }

  function Recoveries(head: string, identities: seq<string>): seq<Body> {
    seq(|identities|, i requires 0 <= i < |identities| => CheckRecovered(identities[i], head))
  }

  /** The events between two available snapshots. */
  ghost function Changes(before: CIState, snapshot: Snapshot): seq<Body> {
    HeadPart(before, snapshot) + StatusPart(before, snapshot)
    + NewFailures(snapshot.headSha, before.failedIdentities, snapshot.failedChecks)
    + RecoveryPart(before, snapshot) + NoChecksPart(before, snapshot)
  }

  function HeadPart(before: CIState, snapshot: Snapshot): seq<Body> {
    if before.headSha != Some(snapshot.headSha) then [HeadChanged(before.headSha, snapshot.headSha)] else []
  }

  function StatusPart(before: CIState, snapshot: Snapshot): seq<Body> {
    if OverallIn(before) != Some(snapshot.overall) then [StatusChanged(OverallIn(before), snapshot.overall, snapshot.headSha)] else []
  }

  /** Recoveries are reported only while the head stays. */
  ghost function RecoveryPart(before: CIState, snapshot: Snapshot): seq<Body> {
    if before.headSha != Some(snapshot.headSha) then []
    else
      Recoveries(snapshot.headSha, Sorted(before.failedIdentities - FailedIdentities(snapshot.headSha, snapshot.failedChecks)))
  }

  function NoChecksPart(before: CIState, snapshot: Snapshot): seq<Body> {
    if snapshot.overall == NoChecks && OverallIn(before) != Some(NoChecks) then [NoChecksFound(snapshot.headSha)] else []
  }

  ghost function Reported(previous: Option<Stored>, snapshot: Snapshot): seq<Body> {
    if previous.None? then [Available(SummaryOf(snapshot))]
    else if previous.value.state.available != Some(true) then [Recovered(SummaryOf(snapshot))]
    else Changes(previous.value.state, snapshot)
  }

  predicate HeartbeatDue(config: Config, last: Option<int>, now: int) {
    last.None? || now - last.value >= config.heartbeatSeconds
  }

  function StateIn(previous: Option<Stored>): CIState {
    if previous.Some? then previous.value.state else NOTHING
  }

  function SequenceIn(previous: Option<Stored>): nat {
    if previous.Some? then previous.value.sequence else 0
  }

  /** `x.get(key, now)` on a time. */
  function TimeOr(time: Option<int>, now: int): Option<int> {
    if time.Some? then time else Some(now)
  }

  function AfterBlocked(state: CIState, now: int): CIState {
    state.(available := Some(false), blocked := true, errorKind := None, backoffUntil := None,
           lastHeartbeatAt := TimeOr(state.lastHeartbeatAt, now))
  }

  function Attempt(state: CIState, kind: string): nat {
    if state.errorKind == Some(kind) then state.backoffAttempt + 1 else 1
  }

  function AfterFailure(state: CIState, head: string, kind: string, reset: Option<int>, now: int): CIState {
    state.(available := Some(false), blocked := false, errorKind := Some(kind), backoffAttempt := Attempt(state, kind),
           backoffUntil := Some(BackoffUntil(now, kind, reset, Attempt(state, kind))), headSha := Some(head),
           lastHeartbeatAt := TimeOr(state.lastHeartbeatAt, now))
  }

  function FailureBody(kind: string): Body {
    if kind == "rate_limited" then RateLimited else if kind == "auth_failed" then AuthFailed else Unavailable(kind)
  }

  function AfterSuccess(read: Read, last: Option<int>): CIState {
    CIState(Some(true), false, None, 0, None, Some(read.snapshot.headSha), Some(read.snapshot),
            FailedIdentities(read.snapshot.headSha, read.snapshot.failedChecks), read.cache, read.notModified, last)
  }

  /** The read the provider makes; a full observer sends no tags. */
  function Fetch(config: Config, conditional: bool, head: string, cache: Cache, world: World): Option<Read>
    requires world.Serving?
  {
    ReadOf(head, cache,
           Answer(world.checks, if conditional then cache.etagChecks else None, world.repeatsTag),
           Answer(world.status, if conditional then cache.etagStatus else None, world.repeatsTag), config.maxFailed)
  }

  function CheckIncidents(config: Config, events: seq<Event<Body>>): seq<(Fingerprint, Event<Body>)> {
    if events == [] then []
    else
      var last := events[|events| - 1];
      CheckIncidents(config, events[..|events| - 1])
      + (if last.body.CheckFailed? then
           [(Fingerprint(config.providerId, config.repository, last.body.head, last.body.check.name, last.body.check.conclusion), last)]
         else [])
  }

  ghost function Observed(config: Config, previous: Option<Stored>, bodies: seq<Body>, state: CIState): Observation {
    var events := Number(SequenceIn(previous), bodies);
    Observation(events, Stored(SequenceIn(previous) + |bodies|, state), CheckIncidents(config, events))
  }

  /** Whether the poll asks the provider. */
  predicate Calls(previous: Option<Stored>, git: GitView, now: int) {
    && Head(git).Some?
    && !(StateIn(previous).backoffUntil.Some? && now < StateIn(previous).backoffUntil.value)
  }

  ghost function PollSuccess(config: Config, previous: Option<Stored>, read: Read, now: int): Observation {
    var reported := Reported(previous, read.snapshot);
    var due := HeartbeatDue(config, StateIn(previous).lastHeartbeatAt, now);
    var bodies := if reported == [] && due then [Heartbeat(SummaryOf(read.snapshot))] else reported;
    Observed(config, previous, bodies,
             AfterSuccess(read, if bodies != [] then Some(now) else StateIn(previous).lastHeartbeatAt))
  }

  /** One poll; none if the observation raises, and then nothing is stored. */
  ghost function Poll(config: Config, conditional: bool, previous: Option<Stored>, git: GitView, now: int, world: World)
    : Option<Observation>
  {
    var state := StateIn(previous);
    if Head(git).None? then
      Some(Observed(config, previous, if state.blocked then [] else [BlockedMissingGitState], AfterBlocked(state, now)))
    else if !Calls(previous, git, now) then
      Some(Observed(config, previous, [], state))
    else
      match world
      case Raising => None
      case Failing(kind, reset) =>
        var known := state.available == Some(false) && state.errorKind == Some(kind);
        Some(Observed(config, previous, if known then [] else [FailureBody(kind)],
                      AfterFailure(state, Head(git).value, kind, reset, now)))
      case Serving(_, _, _) =>
        var read := Fetch(config, conditional, Head(git).value, state.cache, world);
        if read.None? then None else Some(PollSuccess(config, previous, read.value, now))
  }

  // ---- the observer ----

  lemma RecoveriesSnoc(bodies: seq<Body>, head: string, list: seq<string>, i: nat)
    requires i < |list|
    ensures bodies + Recoveries(head, list[..i]) + [CheckRecovered(list[i], head)] == bodies + Recoveries(head, list[..i + 1])
  {
  }

  class Observer {
    const config: Config
    /** The events of the observation under way, and the last sequence number it used. */
    var events: seq<Event<Body>>
    var sequence: nat
    var incidents: seq<(Fingerprint, Event<Body>)>

    constructor (config: Config)
      ensures this.config == config
    {
      this.config := config;
      events, sequence, incidents := [], 0, [];
    }

    /** What the observation under way emitted since it started at `from`. */
    ghost predicate Emitted(from: nat, bodies: seq<Body>)
      reads this
    {
      && events == Number(from, bodies)
      && sequence == from + |bodies|
      && incidents == CheckIncidents(config, events)
    }

    method Begin(from: nat)
      modifies this
      ensures Emitted(from, [])
    {
      events, sequence, incidents := [], from, [];
    }

    method Add(ghost from: nat, ghost bodies: seq<Body>, body: Body)
      requires Emitted(from, bodies) && !body.CheckFailed?
      modifies this
      ensures Emitted(from, bodies + [body])
    {
      sequence := sequence + 1;
      ghost var was := events;
      events := events + [Event(sequence, body)];
      assert events == Number(from, bodies + [body]);
      assert events[..|events| - 1] == was;
    }

    method AddFirst(ghost from: nat, body: Body)
      requires Emitted(from, []) && !body.CheckFailed?
      modifies this
      ensures Emitted(from, [body])
    {
      Add(from, [], body);
      assert [] + [body] == [body];
    }

    method AddNewFailures(ghost from: nat, ghost bodies: seq<Body>, head: string, known: set<string>, checks: seq<FailedCheck>)
      requires Emitted(from, bodies)
      modifies this
      ensures Emitted(from, bodies + NewFailures(head, known, checks))
    {
      assert bodies + NewFailures(head, known, []) == bodies;
      for i := 0 to |checks|
        invariant Emitted(from, bodies + NewFailures(head, known, checks[..i]))
      {
        var check := checks[i];
        ghost var sofar := bodies + NewFailures(head, known, checks[..i]);
        assert checks[..i + 1][..i] == checks[..i];
        if Identity(head, check.name, check.conclusion) !in known {
          assert bodies + NewFailures(head, known, checks[..i + 1]) == sofar + [CheckFailed(head, check)];
          sequence := sequence + 1;
          var event := Event(sequence, CheckFailed(head, check));
          ghost var was := events;
          events := events + [event];
          assert events == Number(from, sofar + [CheckFailed(head, check)]);
          assert events[..|events| - 1] == was;
          incidents := incidents + [(Fingerprint(config.providerId, config.repository, head, check.name, check.conclusion), event)];
        } else {
          assert bodies + NewFailures(head, known, checks[..i + 1]) == sofar;
        }
      }
      assert checks[..|checks|] == checks;
    }

    method AddRecoveries(ghost from: nat, ghost bodies: seq<Body>, head: string, recovered: set<string>)
      requires Emitted(from, bodies)
      modifies this
      ensures Emitted(from, bodies + Recoveries(head, Sorted(recovered)))
    {
      hide Emitted;
      var list := SortSet(recovered);
      assert bodies + Recoveries(head, list[..0]) == bodies;
      for i := 0 to |list|
        invariant Emitted(from, bodies + Recoveries(head, list[..i]))
      {
        RecoveriesSnoc(bodies, head, list, i);
        Add(from, bodies + Recoveries(head, list[..i]), CheckRecovered(list[i], head));
      }
      assert list[..|list|] == list;
    }

    method AddChanges(ghost from: nat, before: CIState, snapshot: Snapshot)
      requires Emitted(from, [])
      modifies this
      ensures Emitted(from, Changes(before, snapshot))
    {
      hide Emitted, NewFailures, Recoveries, Sorted, FailedIdentities, OverallIn;
      var head := snapshot.headSha;
      ghost var bodies: seq<Body> := [];
      if before.headSha != Some(head) {
        Add(from, bodies, HeadChanged(before.headSha, head));
        bodies := bodies + [HeadChanged(before.headSha, head)];
      }
      if OverallIn(before) != Some(snapshot.overall) {
        Add(from, bodies, StatusChanged(OverallIn(before), snapshot.overall, head));
        bodies := bodies + [StatusChanged(OverallIn(before), snapshot.overall, head)];
      }
      AddNewFailures(from, bodies, head, before.failedIdentities, snapshot.failedChecks);
      bodies := bodies + NewFailures(head, before.failedIdentities, snapshot.failedChecks);
      if before.headSha == Some(head) {
        var recovered := before.failedIdentities - FailedIdentities(head, snapshot.failedChecks);
        AddRecoveries(from, bodies, head, recovered);
        bodies := bodies + Recoveries(head, Sorted(recovered));
      }
      if snapshot.overall == NoChecks && OverallIn(before) != Some(NoChecks) {
        Add(from, bodies, NoChecksFound(head));
        bodies := bodies + [NoChecksFound(head)];
      }
      assert bodies == Changes(before, snapshot);
    }

    /** `observe`, where `world` says what the provider meets if it is asked. */
    method Observe(previous: Option<Stored>, git: GitView, now: int, world: World) returns (observation: Option<Observation>)
      modifies this
      ensures observation == Poll(config, true, previous, git, now, world)
    {
      var state := StateIn(previous);
      hide NewFailures, Recoveries, Sorted, FailedIdentities, OverallIn, Changes, CheckIncidents, ReadOf, BackoffUntil;
      ghost var from := SequenceIn(previous);
      Begin(SequenceIn(previous));
      var head := Head(git);
      if head.None? {
        if !state.blocked { AddFirst(from, BlockedMissingGitState); }
        return Some(Observation(events, Stored(sequence, AfterBlocked(state, now)), incidents));
      }
      if state.backoffUntil.Some? && now < state.backoffUntil.value {
        return Some(Observation(events, Stored(sequence, state), incidents));
      }
      match world {
        case Raising => return None;
        case Failing(kind, reset) =>
          if state.available != Some(false) || state.errorKind != Some(kind) {
            AddFirst(from, FailureBody(kind));
          }
          return Some(Observation(events, Stored(sequence, AfterFailure(state, head.value, kind, reset, now)), incidents));
        case Serving(checks, status, repeats) =>
          var read := ReadSnapshot(head.value, state.cache, Answer(checks, state.cache.etagChecks, repeats),
                                   Answer(status, state.cache.etagStatus, repeats), config.maxFailed);
          if read.None? { return None; }
          var snapshot := read.value.snapshot;
          if previous.None? {
            AddFirst(from, Available(SummaryOf(snapshot)));
          } else if state.available != Some(true) {
            AddFirst(from, Recovered(SummaryOf(snapshot)));
          } else {
            AddChanges(from, state, snapshot);
          }
          var last := state.lastHeartbeatAt;
          assert Emitted(from, Reported(previous, snapshot));
          if events != [] {
            last := Some(now);
          } else if last.None? || now - last.value >= config.heartbeatSeconds {
            AddFirst(from, Heartbeat(SummaryOf(snapshot)));
            last := Some(now);
          }
          return Some(Observation(events, Stored(sequence, AfterSuccess(read.value, last)), incidents));
      }
    }
  }

  // ---- runs ----

  datatype Input = Input(git: GitView, now: int, world: World)

  datatype Outcome = Outcome(events: seq<Event<Body>>, stored: Option<Stored>)

  /** One poll and its commit: a raised observation leaves everything as it was. */
  ghost function Step(config: Config, conditional: bool, previous: Option<Stored>, input: Input): Outcome {
    var o := Poll(config, conditional, previous, input.git, input.now, input.world);
    if o.None? then Outcome([], previous) else Outcome(o.value.events, Some(o.value.stored))
  }

  ghost function Run(config: Config, conditional: bool, previous: Option<Stored>, inputs: seq<Input>): Outcome
    decreases |inputs|
  {
    if inputs == [] then Outcome([], previous)
    else
      var first := Step(config, conditional, previous, inputs[0]);
      var rest := Run(config, conditional, first.stored, inputs[1..]);
      Outcome(first.events + rest.events, rest.stored)
  }

  lemma PollIsConsecutive(config: Config, conditional: bool, previous: Option<Stored>, git: GitView, now: int, world: World)
    ensures var o := Poll(config, conditional, previous, git, now, world);
            o.Some? ==> Consecutive(SequenceIn(previous), o.value.events, o.value.stored.sequence)
  {
  }

  // ---- the ETag cache is invisible ----

  // ---- exactly what a poll says ----

  predicate Usable(git: GitView) {
    git.GitState? && git.available && git.headSha.Some? && |git.headSha.value| == 40
  }

  /** The poll asks the provider: it knows the head, and no backoff is running. */
  predicate Asks(s: CIState, git: GitView, now: int) {
    Usable(git) && (s.backoffUntil.Some? ==> now >= s.backoffUntil.value)
  }

  predicate Sums(sum: Summary, s: Snapshot) {
    sum.head == s.headSha && sum.overall == s.overall && sum.total == s.total && sum.failure == s.failure && sum.pending == s.pending
  }

  function Id(head: string, check: FailedCheck): string { head + ":" + check.name + ":" + check.conclusion }

  /** What a failure of the provider is called. */
  predicate Names(body: Body, kind: string) {
    match body
    case RateLimited => kind == "rate_limited"
    case AuthFailed => kind == "auth_failed"
    case Unavailable(k) => k == kind && kind != "rate_limited" && kind != "auth_failed"
    case _ => false
  }

  /** What two available snapshots, of which the first is what was stored, justify saying. */
  predicate ChangeJustified(before: CIState, s: Snapshot, body: Body) {
    match body
    case HeadChanged(was, head) => was == before.headSha && head == s.headSha && was != Some(head)
    case StatusChanged(was, verdict, head) =>
      was == (if before.snapshot.Some? then Some(before.snapshot.value.overall) else None) && verdict == s.overall && head == s.headSha && was != Some(verdict)
    case CheckFailed(head, check) => head == s.headSha && check in s.failedChecks && Id(head, check) !in before.failedIdentities
    case CheckRecovered(id, head) =>
      head == s.headSha && before.headSha == Some(head) && id in before.failedIdentities
      && forall i :: 0 <= i < |s.failedChecks| ==> Id(head, s.failedChecks[i]) != id
    case NoChecksFound(head) =>
      head == s.headSha && s.overall == NoChecks && !(before.snapshot.Some? && before.snapshot.value.overall == NoChecks)
    case _ => false
  }

  /** What a poll has reason to say, besides a heartbeat; `read` is what the provider's reading gives. */
  predicate Justified(previous: Option<Stored>, git: GitView, now: int, world: World, read: Option<Read>, body: Body) {
    var s := if previous.Some? then previous.value.state else NOTHING;
    if !Usable(git) then body.BlockedMissingGitState? && !s.blocked
    else if !Asks(s, git, now) then false
    else
      match world
      case Raising => false
      case Failing(kind, _) => Names(body, kind) && !(s.available == Some(false) && s.errorKind == Some(kind))
      case Serving(_, _, _) =>
        read.Some? &&
        if previous.None? then body.Available? && Sums(body.summary, read.value.snapshot)
        else if s.available != Some(true) then body.Recovered? && Sums(body.summary, read.value.snapshot)
        else ChangeJustified(s, read.value.snapshot, body)
  }

  lemma {:induction false} NewFailuresMean(head: string, known: set<string>, checks: seq<FailedCheck>, body: Body)
    ensures body in NewFailures(head, known, checks) <==>
              body.CheckFailed? && body.head == head && body.check in checks && Id(head, body.check) !in known
  {
    if checks != [] {
      var front := checks[..|checks| - 1];
      NewFailuresMean(head, known, front, body);
      assert checks == front + [checks[|checks| - 1]];
    }
  }

  lemma RecoveryMeans(before: CIState, s: Snapshot, body: Body)
    ensures body in RecoveryPart(before, s) <==> body.CheckRecovered? && ChangeJustified(before, s, body)
  {
    if before.headSha == Some(s.headSha) {
      var gone := before.failedIdentities - FailedIdentities(s.headSha, s.failedChecks);
      var list := Sorted(gone);
      SortedListsTheSet(gone);
      hide Sorted;
      var recoveries := Recoveries(s.headSha, list);
      if body.CheckRecovered? && body.head == s.headSha && body.identity in list {
        var i :| 0 <= i < |list| && list[i] == body.identity;
        assert recoveries[i] == body;
      }
    }
  }

  lemma ChangesMean(before: CIState, s: Snapshot, body: Body)
    ensures body in Changes(before, s) <==> ChangeJustified(before, s, body)
  {
    NewFailuresMean(s.headSha, before.failedIdentities, s.failedChecks, body);
    RecoveryMeans(before, s, body);
    assert body in HeadPart(before, s) <==> body.HeadChanged? && ChangeJustified(before, s, body);
    assert body in StatusPart(before, s) <==> body.StatusChanged? && ChangeJustified(before, s, body);
    assert body in NoChecksPart(before, s) <==> body.NoChecksFound? && ChangeJustified(before, s, body);
    var a, b, c, d, e := HeadPart(before, s), StatusPart(before, s), NewFailures(s.headSha, before.failedIdentities, s.failedChecks),
                         RecoveryPart(before, s), NoChecksPart(before, s);
    assert body in a + b + c + d + e <==> body in a || body in b || body in c || body in d || body in e;
    hide HeadPart, StatusPart, NewFailures, RecoveryPart, NoChecksPart, Id;
  }

  lemma AsksIsCalls(previous: Option<Stored>, git: GitView, now: int)
    ensures Calls(previous, git, now) <==> Asks(if previous.Some? then previous.value.state else NOTHING, git, now)
    ensures Usable(git) <==> Head(git).Some?
    ensures Usable(git) ==> Head(git) == git.headSha
    ensures Calls(previous, git, now) ==> Usable(git)
  {
  }

  lemma FailureBodyNames(kind: string, body: Body)
    ensures body == FailureBody(kind) <==> Names(body, kind)
  {
  }

  /** What the provider's reading gives a poll that asks. */
  function ReadingOf(config: Config, conditional: bool, previous: Option<Stored>, git: GitView, world: World): Option<Read> {
    if world.Serving? && Usable(git) then
      Fetch(config, conditional, git.headSha.value, if previous.Some? then previous.value.state.cache else EMPTY_CACHE, world)
    else None
  }

  lemma ReportedMeans(previous: Option<Stored>, s: Snapshot, body: Body)
    ensures body in Reported(previous, s) <==>
              if previous.None? then body.Available? && Sums(body.summary, s)
              else if previous.value.state.available != Some(true) then body.Recovered? && Sums(body.summary, s)
              else ChangeJustified(previous.value.state, s, body)
  {
    if previous.Some? && previous.value.state.available == Some(true) {
      ChangesMean(previous.value.state, s, body);
      hide Changes, ChangeJustified;
    } else {
      hide Changes, ChangeJustified;
      assert body.Available? && Sums(body.summary, s) ==> body.summary == SummaryOf(s);
      assert body.Recovered? && Sums(body.summary, s) ==> body.summary == SummaryOf(s);
    }
  }

  /** The bodies of a poll. */
  ghost function Says(config: Config, conditional: bool, previous: Option<Stored>, git: GitView, now: int, world: World): seq<Body> {
    var o := Poll(config, conditional, previous, git, now, world);
    if o.Some? then Bodies(o.value.events) else []
  }

  lemma SaysOf(config: Config, conditional: bool, previous: Option<Stored>, git: GitView, now: int, world: World)
    ensures var says, read := Says(config, conditional, previous, git, now, world), ReadingOf(config, conditional, previous, git, world);
            var s := if previous.Some? then previous.value.state else NOTHING;
            && (Poll(config, conditional, previous, git, now, world).None? <==> Asks(s, git, now) && (world.Raising? || (world.Serving? && read.None?)))
            && (!Usable(git) ==> says == if s.blocked then [] else [BlockedMissingGitState])
            && (Usable(git) && !Asks(s, git, now) ==> says == [])
            && (Asks(s, git, now) && world.Failing? ==>
                  says == if s.available == Some(false) && s.errorKind == Some(world.kind) then [] else [FailureBody(world.kind)])
            && (Asks(s, git, now) && world.Serving? && read.Some? ==>
                  var reported := Reported(previous, read.value.snapshot);
                  says == if reported == [] && (s.lastHeartbeatAt.None? || now - s.lastHeartbeatAt.value >= config.heartbeatSeconds)
                          then [Heartbeat(SummaryOf(read.value.snapshot))] else reported)
  {
    hide Calls, Usable, Asks, Reported, Fetch, AfterBlocked, AfterFailure, AfterSuccess, CheckIncidents, FailureBody, Head;
    AsksIsCalls(previous, git, now);
    forall bodies: seq<Body> ensures Bodies(Number(SequenceIn(previous), bodies)) == bodies { NumberedBodies(SequenceIn(previous), bodies); }
  }

  lemma NumberedBodies(from: nat, bodies: seq<Body>)
    ensures Bodies(Number(from, bodies)) == bodies
  {
  }

  /**
   A poll says exactly what the stored state, the Git head and the answer of the provider justify, with
   their values: blocked without a usable head, nothing while a backoff runs, one event for a failure that
   is news, and after a successful reading the arrival, the recovery or the differences; and if that is
   nothing and the last sign of life is heartbeat_seconds old, exactly one heartbeat. It raises exactly if
   it asks and the provider or the reading does.
   */
  lemma PollSaysWhatIsJustified(config: Config, conditional: bool, previous: Option<Stored>, git: GitView, now: int, world: World, body: Body)
    ensures var poll, says := Poll(config, conditional, previous, git, now, world), Says(config, conditional, previous, git, now, world);
            var s, read := if previous.Some? then previous.value.state else NOTHING, ReadingOf(config, conditional, previous, git, world);
            var due := Asks(s, git, now) && world.Serving? && (s.lastHeartbeatAt.Some? ==> now - s.lastHeartbeatAt.value >= config.heartbeatSeconds);
            && (poll.None? <==> Asks(s, git, now) && (world.Raising? || (world.Serving? && read.None?)))
            && (poll.Some? ==>
                  if due && read.Some? && (forall b :: !Justified(previous, git, now, world, read, b)) then
                    |says| == 1 && says[0].Heartbeat? && Sums(says[0].summary, read.value.snapshot)
                  else body in says <==> Justified(previous, git, now, world, read, body))
  {
    hide Poll, Says, ReadingOf, Reported, Names, FailureBody, ChangeJustified, Usable, Asks, Calls, Head;
    SaysOf(config, conditional, previous, git, now, world);
    AsksIsCalls(previous, git, now);
    var s, read := if previous.Some? then previous.value.state else NOTHING, ReadingOf(config, conditional, previous, git, world);
    if Asks(s, git, now) && world.Failing? {
      FailureBodyNames(world.kind, body);
    } else if Asks(s, git, now) && world.Serving? && read.Some? {
      var reported := Reported(previous, read.value.snapshot);
      forall b ensures b in reported <==> Justified(previous, git, now, world, read, b) { ReportedMeans(previous, read.value.snapshot, b); }
      if reported != [] { assert reported[0] in reported; }
    }
  }

  /** The order of what is said between two available snapshots. */
  function Rank(body: Body): nat {
    match body
    case HeadChanged(_, _) => 1
    case StatusChanged(_, _, _) => 2
    case CheckFailed(_, _) => 3
    case CheckRecovered(_, _) => 4
    case NoChecksFound(_) => 5
    case _ => 0
  }

  /** Failures are told in the order they are listed, recoveries in the order of their names, and nothing else twice. */
  lemma ChangesAreRanked(before: CIState, s: Snapshot, i: nat, j: nat)
    requires i < j < |Changes(before, s)|
    ensures var a, b := Changes(before, s)[i], Changes(before, s)[j];
            && Rank(a) <= Rank(b)
            && (Rank(a) == Rank(b) ==>
                  || (a.CheckFailed? && b.CheckFailed?)
                  || (a.CheckRecovered? && b.CheckRecovered? && a.identity != b.identity && AtMost(a.identity, b.identity)))
  {
    hide Sorted, AtMost;
    var failed := NewFailures(s.headSha, before.failedIdentities, s.failedChecks);
    forall k | 0 <= k < |failed| ensures failed[k].CheckFailed? { NewFailuresMean(s.headSha, before.failedIdentities, s.failedChecks, failed[k]); }
    hide NewFailures;
    RecoveriesAreRanked(before, s);
    hide RecoveryPart;
    FivePartsAreRanked(HeadPart(before, s), StatusPart(before, s), failed, RecoveryPart(before, s), NoChecksPart(before, s), i, j);
  }

  predicate RecoveriesInOrder(bodies: seq<Body>) {
    && (forall k :: 0 <= k < |bodies| ==> bodies[k].CheckRecovered?)
    && (forall i, j :: 0 <= i < j < |bodies| ==> bodies[i].identity != bodies[j].identity && AtMost(bodies[i].identity, bodies[j].identity))
  }

  lemma RecoveriesAreRanked(before: CIState, s: Snapshot)
    ensures RecoveriesInOrder(RecoveryPart(before, s))
  {
    SortedListsTheSet(before.failedIdentities - FailedIdentities(s.headSha, s.failedChecks));
    hide Sorted, AtMost;
  }

  lemma FivePartsAreRanked(a: seq<Body>, b: seq<Body>, c: seq<Body>, d: seq<Body>, e: seq<Body>, i: nat, j: nat)
    requires |a| <= 1 && |b| <= 1 && |e| <= 1 && i < j < |a + b + c + d + e|
    requires (a != [] ==> a[0].HeadChanged?) && (b != [] ==> b[0].StatusChanged?) && (e != [] ==> e[0].NoChecksFound?)
    requires (forall k :: 0 <= k < |c| ==> c[k].CheckFailed?) && RecoveriesInOrder(d)
    ensures var all := a + b + c + d + e;
            && Rank(all[i]) <= Rank(all[j])
            && (Rank(all[i]) == Rank(all[j]) ==>
                  || (all[i].CheckFailed? && all[j].CheckFailed?)
                  || (all[i].CheckRecovered? && all[j].CheckRecovered? && all[i].identity != all[j].identity
                      && AtMost(all[i].identity, all[j].identity)))
  {
    hide AtMost;
    var all := a + b + c + d + e;
    var m, n := |a| + |b|, |a| + |b| + |c|;
    assert forall k :: m <= k < n ==> all[k] == c[k - m];
    assert forall k :: n <= k < n + |d| ==> all[k] == d[k - n];
  }

  /** The incident candidates are the newly failing checks, told apart by provider, repository, head, name and conclusion. */
  lemma {:induction false} CandidatesAreFailures(config: Config, events: seq<Event<Body>>, x: (Fingerprint, Event<Body>))
    ensures x in CheckIncidents(config, events) <==>
              x.1 in events && x.1.body.CheckFailed?
              && x.0 == Fingerprint(config.providerId, config.repository, x.1.body.head, x.1.body.check.name, x.1.body.check.conclusion)
  {
    if events != [] {
      var front := events[..|events| - 1];
      CandidatesAreFailures(config, front, x);
      assert events == front + [events[|events| - 1]];
    }
  }

  /** What a poll leaves of the state it found. */
  lemma PollRemembers(config: Config, conditional: bool, previous: Option<Stored>, git: GitView, now: int, world: World)
    requires Poll(config, conditional, previous, git, now, world).Some?
    ensures var o, read := Poll(config, conditional, previous, git, now, world).value, ReadingOf(config, conditional, previous, git, world);
            var s, after := if previous.Some? then previous.value.state else NOTHING, o.stored.state;
            && o.incidents == CheckIncidents(config, o.events)
            && (Usable(git) && !Asks(s, git, now) ==> after == s)
            && (!Usable(git) || (Asks(s, git, now) && world.Failing?) ==>
                  && after.available == Some(false) && (after.blocked <==> !Usable(git))
                  && after.snapshot == s.snapshot && after.failedIdentities == s.failedIdentities && after.cache == s.cache
                  && after.lastHeartbeatAt == Some(if s.lastHeartbeatAt.Some? then s.lastHeartbeatAt.value else now))
            && (!Usable(git) ==>
                  && after.errorKind == None && after.backoffUntil == None && after.headSha == s.headSha
                  && after.backoffAttempt == s.backoffAttempt && after.notModified == s.notModified)
            && (Asks(s, git, now) && world.Failing? ==>
                  && after.errorKind == Some(world.kind) && after.headSha == git.headSha
                  && after.backoffAttempt == (if s.errorKind == Some(world.kind) then s.backoffAttempt + 1 else 1))
            && (Asks(s, git, now) && world.Serving? && read.Some? ==>
                  && after.available == Some(true) && !after.blocked && after.errorKind == None
                  && after.backoffAttempt == 0 && after.backoffUntil == None
                  && after.headSha == Some(read.value.snapshot.headSha) && after.snapshot == Some(read.value.snapshot)
                  && after.cache == read.value.cache && after.notModified == read.value.notModified
                  && (forall id :: id in after.failedIdentities <==>
                        exists i :: 0 <= i < |read.value.snapshot.failedChecks| && id == Id(read.value.snapshot.headSha, read.value.snapshot.failedChecks[i]))
                  && after.lastHeartbeatAt == if o.events != [] then Some(now) else s.lastHeartbeatAt)
  {
    AsksIsCalls(previous, git, now);
    hide Calls, Usable, Asks, Reported, Fetch, CheckIncidents, FailureBody, Head, BackoffUntil;
  }

  /** A tag names one representation, whatever head asked for it. */
  predicate Truthful(input: Input, checksNamed: string -> seq<RawRun>, statusNamed: string -> LegacySummary) {
    var w := input.world;
    w.Serving? ==>
      && (Untagged(w.checks.etag) || w.checks.data == checksNamed(w.checks.etag.value))
      && (Untagged(w.status.etag) || w.status.data == statusNamed(w.status.etag.value))
  }

  predicate ChecksTagged(input: Input) { input.world.Serving? ==> !Untagged(input.world.checks.etag) }

  predicate StatusTagged(input: Input) { input.world.Serving? ==> !Untagged(input.world.status.etag) }

  /** Each resource, once it was served with a tag, is served with one from then on. */
  predicate StaysTagged(inputs: seq<Input>) {
    forall i, j :: 0 <= i < j < |inputs| && inputs[i].world.Serving? ==>
      && (ChecksTagged(inputs[i]) ==> ChecksTagged(inputs[j]))
      && (StatusTagged(inputs[i]) ==> StatusTagged(inputs[j]))
  }

  /** A resource with a stored tag is served with tags. */
  predicate TagsLast(s: Option<Stored>, inputs: seq<Input>) {
    forall i :: 0 <= i < |inputs| ==>
      && (!Untagged(StateIn(s).cache.etagChecks) ==> ChecksTagged(inputs[i]))
      && (!Untagged(StateIn(s).cache.etagStatus) ==> StatusTagged(inputs[i]))
  }

  /** The same stored state, up to the flag that says the last read was answered 304. */
  predicate Alike(a: Option<Stored>, b: Option<Stored>) {
    && (a.None? <==> b.None?)
    && (a.Some? ==>
          && a.value.sequence == b.value.sequence
          && a.value.state.(notModified := false) == b.value.state.(notModified := false))
  }

  predicate CacheBelongs(config: Config, s: Option<Stored>, checksNamed: string -> seq<RawRun>, statusNamed: string -> LegacySummary) {
    ChecksBelong(StateIn(s).cache, config.maxFailed, checksNamed) && LegacyBelongs(StateIn(s).cache, statusNamed)
  }

  lemma StepIsFullStep(config: Config, a: Option<Stored>, b: Option<Stored>, input: Input,
                       checksNamed: string -> seq<RawRun>, statusNamed: string -> LegacySummary)
    requires Alike(a, b) && CacheBelongs(config, a, checksNamed, statusNamed)
    requires Truthful(input, checksNamed, statusNamed) && TagsLast(a, [input])
    ensures var x := Step(config, true, a, input);
            var y := Step(config, false, b, input);
            && x.events == y.events && Alike(x.stored, y.stored) && CacheBelongs(config, x.stored, checksNamed, statusNamed)
            && TagsComeFrom(a, input, x.stored)
  {
    hide Changes, Reported, PollSuccess, ReadOf, Number, CheckIncidents, BackoffUntil, ChecksBelong, LegacyBelongs, Normalized, Combine, Untagged;
    var head, w := Head(input.git), input.world;
    assert StateIn(a).cache == StateIn(b).cache && [input][0] == input;
    if head.Some? && Calls(a, input.git, input.now) && w.Serving? {
      ConditionalReadIsFullRead(head.value, StateIn(a).cache, w.checks, w.status, w.repeatsTag, config.maxFailed, checksNamed, statusNamed);
      var x := Fetch(config, true, head.value, StateIn(a).cache, w).value;
      var y := Fetch(config, false, head.value, StateIn(b).cache, w).value;
      assert x.snapshot == y.snapshot && x.cache == y.cache;
      SuccessIgnoresFlag(config, a, b, x, y, input.now);
    }
  }

  /** A tag stored after a poll was stored before or served in it. */
  predicate TagsComeFrom(before: Option<Stored>, input: Input, after: Option<Stored>) {
    && (!Untagged(StateIn(after).cache.etagChecks) ==>
          !Untagged(StateIn(before).cache.etagChecks) || (input.world.Serving? && ChecksTagged(input)))
    && (!Untagged(StateIn(after).cache.etagStatus) ==>
          !Untagged(StateIn(before).cache.etagStatus) || (input.world.Serving? && StatusTagged(input)))
  }

  lemma TagsStillLast(before: Option<Stored>, inputs: seq<Input>, after: Option<Stored>)
    requires inputs != [] && TagsLast(before, inputs) && StaysTagged(inputs) && TagsComeFrom(before, inputs[0], after)
    ensures TagsLast(after, inputs[1..]) && StaysTagged(inputs[1..]) && TagsLast(before, [inputs[0]])
  {
    hide Untagged, ChecksTagged, StatusTagged;
    forall i | 0 <= i < |inputs[1..]|
      ensures !Untagged(StateIn(after).cache.etagChecks) ==> ChecksTagged(inputs[1..][i])
      ensures !Untagged(StateIn(after).cache.etagStatus) ==> StatusTagged(inputs[1..][i])
    {
      assert inputs[1..][i] == inputs[i + 1];
    }
  }

  lemma SuccessIgnoresFlag(config: Config, a: Option<Stored>, b: Option<Stored>, x: Read, y: Read, now: int)
    requires Alike(a, b) && x.snapshot == y.snapshot && x.cache == y.cache
    ensures var p := PollSuccess(config, a, x, now);
            var q := PollSuccess(config, b, y, now);
            p.events == q.events && Alike(Some(p.stored), Some(q.stored))
            && p.stored.state.cache == x.cache
  {
    hide Changes, Number, CheckIncidents, FailedIdentities;
    if a.Some? { ChangesIgnoreFlag(a.value.state, b.value.state, x.snapshot); }
    assert Reported(a, x.snapshot) == Reported(b, y.snapshot);
  }

  lemma ChangesIgnoreFlag(p: CIState, q: CIState, snapshot: Snapshot)
    requires p.(notModified := false) == q.(notModified := false)
    ensures Changes(p, snapshot) == Changes(q, snapshot)
  {
    hide NewFailures, Recoveries, Sorted, FailedIdentities;
    assert p.headSha == q.headSha && p.snapshot == q.snapshot && p.failedIdentities == q.failedIdentities;
  }

  /** Over the polls done so far, with more to come. */
  lemma {:induction false} CacheIsInvisibleSoFar(config: Config, a: Option<Stored>, b: Option<Stored>, done: seq<Input>, rest: seq<Input>,
                                                 checksNamed: string -> seq<RawRun>, statusNamed: string -> LegacySummary)
    requires Alike(a, b) && CacheBelongs(config, a, checksNamed, statusNamed)
    requires forall i :: 0 <= i < |done| ==> Truthful(done[i], checksNamed, statusNamed)
    requires StaysTagged(done + rest) && TagsLast(a, done + rest)
    ensures Run(config, true, a, done).events == Run(config, false, b, done).events
    ensures Alike(Run(config, true, a, done).stored, Run(config, false, b, done).stored)
    ensures CacheBelongs(config, Run(config, true, a, done).stored, checksNamed, statusNamed)
    ensures TagsLast(Run(config, true, a, done).stored, rest)
    decreases |done|
  {
    if done == [] {
      assert done + rest == rest;
    } else {
      var inputs := done + rest;
      assert inputs[0] == done[0] && inputs[1..] == done[1..] + rest;
      var next := Step(config, true, a, done[0]).stored;
      OneTagLasts(a, inputs);
      StepIsFullStep(config, a, b, done[0], checksNamed, statusNamed);
      TagsStillLast(a, inputs, next);
      hide Step, Alike, CacheBelongs, StaysTagged, TagsLast, TagsComeFrom, Truthful;
      CacheIsInvisibleSoFar(config, next, Step(config, false, b, done[0]).stored, done[1..], rest, checksNamed, statusNamed);
    }
  }

  /**
   Over every run of successes, failures, skipped and blocked polls, the observer that sends the
   stored tags emits the events and stores the fields of one that always fetches in full, if a tag
   names one representation and a resource that was served with a tag keeps being served with tags.
   */
  lemma CacheIsInvisible(config: Config, a: Option<Stored>, b: Option<Stored>, inputs: seq<Input>,
                         checksNamed: string -> seq<RawRun>, statusNamed: string -> LegacySummary)
    requires Alike(a, b) && CacheBelongs(config, a, checksNamed, statusNamed)
    requires forall i :: 0 <= i < |inputs| ==> Truthful(inputs[i], checksNamed, statusNamed)
    requires StaysTagged(inputs) && TagsLast(a, inputs)
    ensures Run(config, true, a, inputs).events == Run(config, false, b, inputs).events
    ensures Alike(Run(config, true, a, inputs).stored, Run(config, false, b, inputs).stored)
    ensures CacheBelongs(config, Run(config, true, a, inputs).stored, checksNamed, statusNamed)
  {
    hide *;
    assert inputs + [] == inputs;
    CacheIsInvisibleSoFar(config, a, b, inputs, [], checksNamed, statusNamed);
  }

  lemma OneTagLasts(s: Option<Stored>, inputs: seq<Input>)
    requires inputs != [] && TagsLast(s, inputs)
    ensures TagsLast(s, [inputs[0]])
  {
    hide Untagged, ChecksTagged, StatusTagged;
  }

  // ---- what an untagged response does ----

  /** A poll with Git state in which the check runs are served with or without a tag, and the status with one. */
  predicate ServesRuns(input: Input, head: string, runs: seq<RawRun>, tag: Option<string>, status: Representation<LegacySummary>) {
    && Head(input.git) == Some(head)
    && input.world.Serving? && input.world.checks == Representation(runs, tag) && input.world.status == status
    && !Untagged(status.etag)
  }

  function SnapshotOf(config: Config, head: string, runs: seq<RawRun>, status: Representation<LegacySummary>): Snapshot {
    Combine(head, Normalized(runs, config.maxFailed), status.data)
  }

  /** Available, with the checks tagged `tag` and the summary of `runs` in the cache. */
  predicate Holds(config: Config, s: Option<Stored>, head: string, runs: seq<RawRun>, tag: string, status: Representation<LegacySummary>) {
    && s.Some? && s.value.state.available == Some(true) && s.value.state.backoffUntil.None?
    && s.value.state.headSha == Some(head) && s.value.state.snapshot == Some(SnapshotOf(config, head, runs, status))
    && s.value.state.failedIdentities == FailedIdentities(head, SnapshotOf(config, head, runs, status).failedChecks)
    && s.value.state.cache == Cache(Some(tag), status.etag, Some(Normalized(runs, config.maxFailed)), Some(status.data))
  }

  lemma TaggedFirstPoll(config: Config, input: Input, head: string, runs: seq<RawRun>, tag: string, status: Representation<LegacySummary>)
    requires ServesRuns(input, head, runs, Some(tag), status) && tag != ""
    ensures var x, y := Step(config, true, None, input), Step(config, false, None, input);
            x.events == y.events && Alike(x.stored, y.stored) && Holds(config, x.stored, head, runs, tag, status)
  {
    HeadOfSnapshot(config, head, runs, status);
    hide Normalized, Combine, FailedIdentities, CheckIncidents, Number;
  }

  lemma HeadOfSnapshot(config: Config, head: string, runs: seq<RawRun>, status: Representation<LegacySummary>)
    ensures SnapshotOf(config, head, runs, status).headSha == head
  {
  }

  /** The untagged response replaces the summary under the old tag. */
  lemma UntaggedPoll(config: Config, a: Option<Stored>, b: Option<Stored>, input: Input, head: string,
                     was: seq<RawRun>, runs: seq<RawRun>, tag: string, status: Representation<LegacySummary>)
    requires Alike(a, b) && Holds(config, a, head, was, tag, status) && tag != ""
    requires ServesRuns(input, head, runs, None, status)
    ensures var x, y := Step(config, true, a, input), Step(config, false, b, input);
            x.events == y.events && Alike(x.stored, y.stored) && Holds(config, x.stored, head, runs, tag, status)
  {
    HeadOfSnapshot(config, head, runs, status);
    hide Normalized, Combine, FailedIdentities, CheckIncidents, Number, Changes;
    var x := Fetch(config, true, head, StateIn(a).cache, input.world).value;
    var y := Fetch(config, false, head, StateIn(b).cache, input.world).value;
    assert x.snapshot == y.snapshot == SnapshotOf(config, head, runs, status) && x.cache == y.cache;
    SuccessIgnoresFlag(config, a, b, x, y, input.now);
  }

  /** The next poll with the old tag: the observer sees the untagged checks again, a full one those that are served. */
  lemma TaggedAgain(config: Config, a: Option<Stored>, b: Option<Stored>, input: Input, head: string,
                    stale: seq<RawRun>, runs: seq<RawRun>, tag: string, status: Representation<LegacySummary>)
    requires Alike(a, b) && Holds(config, a, head, stale, tag, status) && tag != "" && |head| == 40
    requires ServesRuns(input, head, runs, Some(tag), status)
    ensures Step(config, true, a, input).events == Step(config, false, b, input).events
      <==> SaysTheSame(SnapshotOf(config, head, stale, status), SnapshotOf(config, head, runs, status),
                       HeartbeatDue(config, StateIn(a).lastHeartbeatAt, input.now))
  {
    HeadOfSnapshot(config, head, runs, status);
    HeadOfSnapshot(config, head, stale, status);
    hide Normalized, Combine, FailedIdentities, CheckIncidents, Changes;
    var mine, theirs := SnapshotOf(config, head, stale, status), SnapshotOf(config, head, runs, status);
    assert Fetch(config, true, head, StateIn(a).cache, input.world).value.snapshot == mine;
    assert Fetch(config, false, head, StateIn(b).cache, input.world).value.snapshot == theirs;
    ChangesSaySomethingIff(StateIn(a), mine);
    ChangesSaySomethingIff(StateIn(b), theirs);
    ChangesAreNoHeartbeats(StateIn(b), theirs);
    assert KnownIn(StateIn(a)) == KnownIn(StateIn(b)) == KnownOf(mine);
    var due := HeartbeatDue(config, StateIn(a).lastHeartbeatAt, input.now);
    var x, y := Step(config, true, a, input).events, Step(config, false, b, input).events;
    assert x == Number(SequenceIn(a), if due then [Heartbeat(SummaryOf(mine))] else []);
    if KnownOf(mine) != KnownOf(theirs) {
      assert y == Number(SequenceIn(b), Changes(StateIn(b), theirs));
      assert y[0].body == Changes(StateIn(b), theirs)[0];
    } else {
      assert y == Number(SequenceIn(b), if due then [Heartbeat(SummaryOf(theirs))] else []);
      assert due ==> x[0].body == Heartbeat(SummaryOf(mine)) && y[0].body == Heartbeat(SummaryOf(theirs));
    }
  }

  /** A reader of the events cannot tell the snapshots apart: nothing changes between them, and a due heartbeat reads the same. */
  predicate SaysTheSame(mine: Snapshot, theirs: Snapshot, due: bool) {
    KnownOf(mine) == KnownOf(theirs) && (due ==> SummaryOf(mine) == SummaryOf(theirs))
  }

  lemma RunOfThree(config: Config, conditional: bool, i1: Input, i2: Input, i3: Input)
    ensures var first := Step(config, conditional, None, i1);
            var second := Step(config, conditional, first.stored, i2);
            var third := Step(config, conditional, second.stored, i3);
            && Run(config, conditional, None, [i1, i2]).stored == second.stored
            && Run(config, conditional, None, [i1, i2, i3]).events == first.events + (second.events + (third.events + []))
  {
    hide Step;
    var first := Step(config, conditional, None, i1);
    var second := Step(config, conditional, first.stored, i2);
    var third := Step(config, conditional, second.stored, i3);
    assert [i1, i2][1..] == [i2] && [i2][1..] == [] && [i1, i2, i3][1..] == [i2, i3] && [i2, i3][1..] == [i3] && [i3][1..] == [];
    assert Run(config, conditional, second.stored, [i3]).events == third.events + [];
    assert Run(config, conditional, first.stored, [i2, i3]).events == second.events + (third.events + []);
    assert Run(config, conditional, first.stored, [i2]).stored == second.stored;
  }

  /**
   Why tags must last: the checks `a` are served with a tag, then `b` without one, then `a` under the old
   tag again. The observer emits the events of a full one exactly if the events cannot tell `b` from `a`.
   */
  lemma UntaggedResponseMisleadsIff(config: Config, i1: Input, i2: Input, i3: Input, head: string, a: seq<RawRun>, b: seq<RawRun>,
                                    tag: string, status: Representation<LegacySummary>)
    requires |head| == 40 && tag != ""
    requires ServesRuns(i1, head, a, Some(tag), status) && ServesRuns(i2, head, b, None, status) && ServesRuns(i3, head, a, Some(tag), status)
    ensures var last := StateIn(Run(config, true, None, [i1, i2]).stored).lastHeartbeatAt;
            (Run(config, true, None, [i1, i2, i3]).events == Run(config, false, None, [i1, i2, i3]).events)
            <==> SaysTheSame(SnapshotOf(config, head, b, status), SnapshotOf(config, head, a, status), HeartbeatDue(config, last, i3.now))
  {
    RunOfThree(config, true, i1, i2, i3);
    RunOfThree(config, false, i1, i2, i3);
    TaggedFirstPoll(config, i1, head, a, tag, status);
    var x1, y1 := Step(config, true, None, i1), Step(config, false, None, i1);
    UntaggedPoll(config, x1.stored, y1.stored, i2, head, a, b, tag, status);
    var x2, y2 := Step(config, true, x1.stored, i2), Step(config, false, y1.stored, i2);
    TaggedAgain(config, x2.stored, y2.stored, i3, head, b, a, tag, status);
    hide *;
    var x3, y3 := Step(config, true, x2.stored, i3).events, Step(config, false, y2.stored, i3).events;
    SameFront(x1.events, x2.events, x3, y3);
  }

  lemma SameFront<T>(a: seq<T>, b: seq<T>, x: seq<T>, y: seq<T>)
    ensures a + (b + (x + [])) == a + (b + (y + [])) <==> x == y
  {
    var p, q := a + (b + (x + [])), a + (b + (y + []));
    assert x == p[|a| + |b|..] && y == q[|a| + |b|..];
  }

  /** For instance no checks, then one passing check without a tag, then no checks again: the full observer reports the last change. */
  lemma UntaggedResponseMisleads(config: Config, git: GitView, t1: int, t2: int, t3: int, repeats: bool)
    requires Head(git).Some?
    ensures var status := Representation(LegacySummary(0, "pending"), Some("s"));
            var run := CheckRun("completed", Some("success"), "build", None, "", "1");
            var none := Input(git, t1, Serving(Representation([], Some("t")), status, repeats));
            var some := Input(git, t2, Serving(Representation([run], None), status, repeats));
            var again := none.(now := t3);
            Run(config, true, None, [none, some, again]).events != Run(config, false, None, [none, some, again]).events
  {
    var status := Representation(LegacySummary(0, "pending"), Some("s"));
    var run := CheckRun("completed", Some("success"), "build", None, "", "1");
    var none := Input(git, t1, Serving(Representation([], Some("t")), status, repeats));
    var some := Input(git, t2, Serving(Representation([run], None), status, repeats));
    ChecksTellApart(config, Head(git).value, run, status);
    hide Run, StateIn, SnapshotOf, KnownOf, SummaryOf, HeartbeatDue;
    UntaggedResponseMisleadsIff(config, none, some, none.(now := t3), Head(git).value, [], [run], "t", status);
  }

  lemma ChecksTellApart(config: Config, head: string, run: RawRun, status: Representation<LegacySummary>)
    requires run == CheckRun("completed", Some("success"), "build", None, "", "1") && status.data == LegacySummary(0, "pending")
    ensures KnownOf(SnapshotOf(config, head, [run], status)) != KnownOf(SnapshotOf(config, head, [], status))
  {
    assert "success"[0] != "failure"[0];
    assert Categorize(run) == Passing;
    CountOne(run, Category.Failing);
    CountOne(run, Cancelled);
    CountOne(run, Pending);
    CountOne(run, Passing);
    hide Categorize, Count;
    NoRuns();
    assert SnapshotOf(config, head, [run], status).overall == AnySuccess;
    assert SnapshotOf(config, head, [], status).overall == NoChecks;
  }

  lemma CountOne(run: RawRun, c: Category)
    ensures Count([run], c) == if Categorize(run) == c then 1 else 0
  {
    assert [run][..0] == [] && Count([], c) == 0;
  }

  lemma NoRuns()
    ensures forall c :: Count([], c) == 0
  {
  }

  // ---- the event log is replayable ----

  /** What a reader of the events knows: the head, the overall status and the failing checks. */
  datatype Known = Known(head: Option<string>, overall: Option<Overall>, failing: set<string>)

  function KnownIn(s: CIState): Known { Known(s.headSha, OverallIn(s), s.failedIdentities) }

  /** What the reader makes of one event: a new head clears the failing checks. */
  function Apply(k: Known, body: Body): Known {
    match body
    case HeadChanged(_, current) => k.(head := Some(current), failing := {})
    case StatusChanged(_, to, _) => k.(overall := Some(to))
    case CheckFailed(head, check) => k.(failing := k.failing + {Identity(head, check.name, check.conclusion)})
    case CheckRecovered(identity, _) => k.(failing := k.failing - {identity})
    case _ => k
  }

  function Replay(k: Known, bodies: seq<Body>): Known {
    if bodies == [] then k else Apply(Replay(k, bodies[..|bodies| - 1]), bodies[|bodies| - 1])
  }

  lemma {:induction false} ReplayConcat(k: Known, a: seq<Body>, b: seq<Body>)
    ensures Replay(k, a + b) == Replay(Replay(k, a), b)
  {
    if b == [] {
      assert a + b == a;
    } else {
      ReplayConcat(k, a, b[..|b| - 1]);
      assert (a + b)[..|a + b| - 1] == a + b[..|b| - 1];
    }
  }

  lemma ReplayOne(k: Known, body: Body)
    ensures Replay(k, [body]) == Apply(k, body)
    ensures Replay(k, []) == k
  {
    assert [body][..0] == [];
  }

  lemma {:induction false} ReplayNewFailures(k: Known, head: string, known: set<string>, checks: seq<FailedCheck>)
    ensures Replay(k, NewFailures(head, known, checks)) == k.(failing := k.failing + (FailedIdentities(head, checks) - known))
  {
    if checks == [] {
      ReplayOne(k, BlockedMissingGitState);
    } else {
      var front, check := checks[..|checks| - 1], checks[|checks| - 1];
      ReplayNewFailures(k, head, known, front);
      FailedIdentitiesSnoc(head, checks);
      NewFailuresSnoc(head, known, checks);
      hide *;
      var failed := CheckFailed(head, check);
      ReplayConcat(k, NewFailures(head, known, front), if Identity(head, check.name, check.conclusion) in known then [] else [failed]);
      ReplayFailed(k, k.failing + (FailedIdentities(head, front) - known), failed);
      AddOne(k.failing, FailedIdentities(head, front), known, Identity(head, check.name, check.conclusion));
    }
  }

  lemma NewFailuresSnoc(head: string, known: set<string>, checks: seq<FailedCheck>)
    requires checks != []
    ensures var check := checks[|checks| - 1];
            NewFailures(head, known, checks)
              == NewFailures(head, known, checks[..|checks| - 1])
               + (if Identity(head, check.name, check.conclusion) in known then [] else [CheckFailed(head, check)])
  {
  }

  lemma ReplayFailed(k: Known, failing: set<string>, failed: Body)
    requires failed.CheckFailed?
    ensures Replay(k.(failing := failing), [failed])
         == k.(failing := failing + {Identity(failed.head, failed.check.name, failed.check.conclusion)})
    ensures Replay(k.(failing := failing), []) == k.(failing := failing)
  {
    ReplayOne(k.(failing := failing), failed);
  }

  lemma AddOne(all: set<string>, some: set<string>, known: set<string>, x: string)
    ensures all + ((some + {x}) - known) == if x in known then all + (some - known) else all + (some - known) + {x}
  {
  }

  lemma FailedIdentitiesSnoc(head: string, checks: seq<FailedCheck>)
    requires checks != []
    ensures var check := checks[|checks| - 1];
            FailedIdentities(head, checks) == FailedIdentities(head, checks[..|checks| - 1]) + {Identity(head, check.name, check.conclusion)}
  {
    hide Identity;
    var front, check := checks[..|checks| - 1], checks[|checks| - 1];
    var id := Identity(head, check.name, check.conclusion);
    forall x | x in FailedIdentities(head, checks) ensures x in FailedIdentities(head, front) + {id} {
      var i :| 0 <= i < |checks| && x == Identity(head, checks[i].name, checks[i].conclusion);
      assert i < |front| ==> checks[i] == front[i];
    }
    forall x | x in FailedIdentities(head, front) ensures x in FailedIdentities(head, checks) {
      var i :| 0 <= i < |front| && x == Identity(head, front[i].name, front[i].conclusion);
      assert checks[i] == front[i];
    }
  }

  lemma {:induction false} ReplayRecoveries(k: Known, head: string, list: seq<string>)
    ensures Replay(k, Recoveries(head, list)) == k.(failing := k.failing - (set x | x in list))
  {
    if list == [] {
    } else {
      var n := |list| - 1;
      ReplayRecoveries(k, head, list[..n]);
      assert Recoveries(head, list)[..n] == Recoveries(head, list[..n]);
      assert list == list[..n] + [list[n]];
    }
  }

  /** Identities of different heads differ, and for failing conclusions an identity tells name and conclusion. */
  lemma IdentityIsInjective(h: string, n: string, c: string, h': string, n': string, c': string)
    requires |h| == |h'| == 40
    ensures Identity(h, n, c) == Identity(h', n', c') ==> h == h'
    ensures Identity(h, n, c) == Identity(h', n', c') && c in FAILURE_CONCLUSIONS && c' in FAILURE_CONCLUSIONS
        ==> n == n' && c == c'
  {
    var x, y := Identity(h, n, c), Identity(h', n', c');
    assert x[..40] == h && y[..40] == h';
    if x == y && c in FAILURE_CONCLUSIONS && c' in FAILURE_CONCLUSIONS {
      NoColonInConclusions();
      LastColonSplits(h + ":" + n, c, h' + ":" + n', c');
      assert (h + ":" + n)[41..] == n && (h' + ":" + n')[41..] == n';
    }
  }

  lemma LastColonSplits(a: string, c: string, a': string, c': string)
    requires a + ":" + c == a' + ":" + c' && ':' !in c && ':' !in c'
    ensures a == a' && c == c'
  {
    var x, y := a + ":" + c, a' + ":" + c';
    NoColonAfter(a, c);
    NoColonAfter(a', c');
    assert x[|a|] == ':' && y[|a'|] == ':';
    assert |a| == |a'|;
    assert x[..|a|] == a && y[..|a'|] == a' && x[|a| + 1..] == c && y[|a'| + 1..] == c';
  }

  lemma NoColonAfter(a: string, c: string)
    requires ':' !in c
    ensures forall k :: |a| < k < |a + ":" + c| ==> (a + ":" + c)[k] != ':'
  {
    var x := a + ":" + c;
    forall k | |a| < k < |x| ensures x[k] != ':' { assert x[k] == c[k - |a| - 1]; }
  }

  lemma NoColonInConclusions()
    ensures forall c :: c in FAILURE_CONCLUSIONS ==> ':' !in c
  {
  }

  /** While available, head, snapshot and failure set belong together. */
  predicate Coherent(s: CIState) {
    s.available == Some(true) ==>
      && s.headSha.Some? && |s.headSha.value| == 40
      && s.snapshot.Some? && s.snapshot.value.headSha == s.headSha.value
      && s.failedIdentities == FailedIdentities(s.headSha.value, s.snapshot.value.failedChecks)
  }

  lemma StepIsCoherent(config: Config, conditional: bool, previous: Option<Stored>, input: Input)
    requires Coherent(StateIn(previous))
    ensures Coherent(StateIn(Step(config, conditional, previous, input).stored))
  {
    hide Changes, Number, CheckIncidents, Normalized;
  }

  lemma PartsReplay(before: CIState, snapshot: Snapshot)
    requires before.available == Some(true) && Coherent(before) && |snapshot.headSha| == 40
    ensures var head, now := snapshot.headSha, FailedIdentities(snapshot.headSha, snapshot.failedChecks);
            var k0 := Known(Some(head), OverallIn(before), if before.headSha != Some(head) then {} else before.failedIdentities);
            var k1 := k0.(overall := Some(snapshot.overall));
            && Replay(KnownIn(before), HeadPart(before, snapshot)) == k0
            && Replay(k0, StatusPart(before, snapshot)) == k1
            && Replay(KnownOf(snapshot), NoChecksPart(before, snapshot)) == KnownOf(snapshot)
  {
    hide Replay, FailedIdentities, OverallIn;
    var k0 := Known(Some(snapshot.headSha), OverallIn(before), if before.headSha != Some(snapshot.headSha) then {} else before.failedIdentities);
    ReplayOne(KnownIn(before), HeadChanged(before.headSha, snapshot.headSha));
    ReplayOne(k0, StatusChanged(OverallIn(before), snapshot.overall, snapshot.headSha));
    ReplayOne(KnownOf(snapshot), NoChecksFound(snapshot.headSha));
  }

  lemma RecoveryReplays(before: CIState, snapshot: Snapshot, k: Known)
    requires before.available == Some(true) && Coherent(before) && |snapshot.headSha| == 40
    requires var now := FailedIdentities(snapshot.headSha, snapshot.failedChecks);
             k == KnownOf(snapshot).(failing := (if before.headSha != Some(snapshot.headSha) then {} else before.failedIdentities)
                                                + (now - before.failedIdentities))
    ensures Replay(k, RecoveryPart(before, snapshot)) == KnownOf(snapshot)
  {
    hide Replay, Recoveries, Sorted, FailedIdentities;
    var head, was := snapshot.headSha, before.failedIdentities;
    var now := FailedIdentities(head, snapshot.failedChecks);
    if before.headSha != Some(head) {
      HeadsSeparate(before.headSha.value, before.snapshot.value.failedChecks, head, snapshot.failedChecks);
      ReplayOne(k, NoChecksFound(head));
    } else {
      SortedListsTheSet(was - now);
      ReplayRecoveries(k, head, Sorted(was - now));
    }
  }

  lemma ChangesReplay(before: CIState, snapshot: Snapshot)
    requires before.available == Some(true) && Coherent(before) && |snapshot.headSha| == 40
    ensures Replay(KnownIn(before), Changes(before, snapshot)) == KnownOf(snapshot)
  {
    var head, was, k := snapshot.headSha, before.failedIdentities, KnownIn(before);
    var a, b, c := HeadPart(before, snapshot), StatusPart(before, snapshot), NewFailures(head, was, snapshot.failedChecks);
    var d, e := RecoveryPart(before, snapshot), NoChecksPart(before, snapshot);
    hide Replay, HeadPart, StatusPart, NewFailures, RecoveryPart, NoChecksPart, FailedIdentities, Coherent, OverallIn;
    ReplayConcat(k, a + b + c + d, e);
    ReplayConcat(k, a + b + c, d);
    ReplayConcat(k, a + b, c);
    ReplayConcat(k, a, b);
    PartsReplay(before, snapshot);
    var k1 := Known(Some(head), Some(snapshot.overall), if before.headSha != Some(head) then {} else was);
    ReplayNewFailures(k1, head, was, snapshot.failedChecks);
    RecoveryReplays(before, snapshot, k1.(failing := k1.failing + (FailedIdentities(head, snapshot.failedChecks) - was)));
  }

  function KnownOf(s: Snapshot): Known {
    Known(Some(s.headSha), Some(s.overall), FailedIdentities(s.headSha, s.failedChecks))
  }

  lemma HeadsSeparate(h: string, before: seq<FailedCheck>, h': string, after: seq<FailedCheck>)
    requires |h| == |h'| == 40 && h != h'
    ensures FailedIdentities(h, before) !! FailedIdentities(h', after)
  {
    forall x | x in FailedIdentities(h, before) ensures x !in FailedIdentities(h', after) {
      if x in FailedIdentities(h', after) {
        var i :| 0 <= i < |before| && x == Identity(h, before[i].name, before[i].conclusion);
        var j :| 0 <= j < |after| && x == Identity(h', after[j].name, after[j].conclusion);
        IdentityIsInjective(h, before[i].name, before[i].conclusion, h', after[j].name, after[j].conclusion);
      }
    }
  }

  /** Every poll of the run leaves the source available: the run stays inside one epoch. */
  ghost predicate StaysAvailable(config: Config, conditional: bool, previous: Option<Stored>, inputs: seq<Input>)
    decreases |inputs|
  {
    && StateIn(previous).available == Some(true)
    && (inputs != [] ==> StaysAvailable(config, conditional, Step(config, conditional, previous, inputs[0]).stored, inputs[1..]))
  }

  lemma StepReplays(config: Config, conditional: bool, previous: Option<Stored>, input: Input)
    requires Coherent(StateIn(previous)) && StateIn(previous).available == Some(true)
    ensures var after := Step(config, conditional, previous, input);
            StateIn(after.stored).available == Some(true) ==>
              Replay(KnownIn(StateIn(previous)), Bodies(after.events)) == KnownIn(StateIn(after.stored))
  {
    hide Changes, CheckIncidents, Normalized, FailedIdentities, Replay;
    var state := StateIn(previous);
    var after := Step(config, conditional, previous, input);
    ReplayOne(KnownIn(state), BlockedMissingGitState);
    if Head(input.git).Some? && Calls(previous, input.git, input.now) && input.world.Serving? {
      var read := Fetch(config, conditional, Head(input.git).value, state.cache, input.world);
      if read.Some? {
        var snapshot := read.value.snapshot;
        ChangesReplay(state, snapshot);
        var bodies := Changes(state, snapshot);
        assert Bodies(Number(SequenceIn(previous), bodies)) == bodies;
        ReplayOne(KnownIn(state), Heartbeat(SummaryOf(snapshot)));
        var beat := [Heartbeat(SummaryOf(snapshot))];
        assert Bodies(Number(SequenceIn(previous), beat)) == beat;
      }
    }
    assert after.events == [] ==> Bodies(after.events) == [];
  }

  lemma {:induction false} EpochReplays(config: Config, conditional: bool, previous: Option<Stored>, inputs: seq<Input>)
    requires Coherent(StateIn(previous)) && StaysAvailable(config, conditional, previous, inputs)
    ensures var end := Run(config, conditional, previous, inputs);
            Replay(KnownIn(StateIn(previous)), Bodies(end.events)) == KnownIn(StateIn(end.stored))
    decreases |inputs|
  {
    if inputs == [] {
    } else {
      StepIsCoherent(config, conditional, previous, inputs[0]);
      StepReplays(config, conditional, previous, inputs[0]);
      hide Step, Replay, Bodies, Coherent, KnownIn;
      var first := Step(config, conditional, previous, inputs[0]);
      assert StaysAvailable(config, conditional, first.stored, inputs[1..]);
      EpochReplays(config, conditional, first.stored, inputs[1..]);
      var rest := Run(config, conditional, first.stored, inputs[1..]);
      BodiesConcat(first.events, rest.events);
      ReplayConcat(KnownIn(StateIn(previous)), Bodies(first.events), Bodies(rest.events));
    }
  }

  /**
   Whatever happened before, from any point of an available epoch on the events alone carry a reader
   from the stored head, status and failing checks to those stored at the end.
   */
  lemma LogIsReplayable(config: Config, conditional: bool, before: seq<Input>, inputs: seq<Input>)
    requires StaysAvailable(config, conditional, Run(config, conditional, None, before).stored, inputs)
    ensures var start := Run(config, conditional, None, before).stored;
            var end := Run(config, conditional, start, inputs);
            Replay(KnownIn(StateIn(start)), Bodies(end.events)) == KnownIn(StateIn(end.stored))
  {
    RunIsCoherent(config, conditional, None, before);
    EpochReplays(config, conditional, Run(config, conditional, None, before).stored, inputs);
  }

  /** Between two available snapshots something is said exactly if head, status or failing checks differ. */
  lemma ChangesSaySomethingIff(before: CIState, snapshot: Snapshot)
    requires before.available == Some(true) && Coherent(before) && |snapshot.headSha| == 40
    ensures Changes(before, snapshot) == [] <==> KnownIn(before) == KnownOf(snapshot)
  {
    var head, was := snapshot.headSha, before.failedIdentities;
    var now := FailedIdentities(head, snapshot.failedChecks);
    ChangesReplay(before, snapshot);
    ReplayOne(KnownIn(before), NoChecksFound(head));
    if KnownIn(before) == KnownOf(snapshot) {
      NoNewFailures(head, was, snapshot.failedChecks);
      hide FailedIdentities, NewFailures, Replay;
      assert was - now == {};
    }
  }

  lemma {:induction false} NoNewFailures(head: string, known: set<string>, checks: seq<FailedCheck>)
    requires FailedIdentities(head, checks) <= known
    ensures NewFailures(head, known, checks) == []
  {
    if checks != [] {
      FailedIdentitiesSnoc(head, checks);
      hide FailedIdentities;
      NoNewFailures(head, known, checks[..|checks| - 1]);
    }
  }

  /** Only failing conclusions are ever kept. */
  predicate OnlyFailing(s: CIState) {
    && (s.snapshot.Some? ==> AllFailing(s.snapshot.value.failedChecks))
    && (s.cache.checks.Some? ==> AllFailing(s.cache.checks.value.failedChecks))
  }

  predicate AllFailing(checks: seq<FailedCheck>) {
    forall i :: 0 <= i < |checks| ==> checks[i].conclusion in FAILURE_CONCLUSIONS
  }

  lemma StepKeepsOnlyFailing(config: Config, conditional: bool, previous: Option<Stored>, input: Input)
    requires OnlyFailing(StateIn(previous))
    ensures OnlyFailing(StateIn(Step(config, conditional, previous, input).stored))
  {
    hide Changes, Number, CheckIncidents, FailedIdentities, Count, Failures, Sorted, BackoffUntil;
    if input.world.Serving? { FailuresHaveFailureConclusions(input.world.checks.data); }
  }

  lemma {:induction false} RunIsCoherent(config: Config, conditional: bool, previous: Option<Stored>, inputs: seq<Input>)
    requires Coherent(StateIn(previous)) && OnlyFailing(StateIn(previous))
    ensures Coherent(StateIn(Run(config, conditional, previous, inputs).stored))
    ensures OnlyFailing(StateIn(Run(config, conditional, previous, inputs).stored))
    decreases |inputs|
  {
    if inputs != [] {
      StepIsCoherent(config, conditional, previous, inputs[0]);
      StepKeepsOnlyFailing(config, conditional, previous, inputs[0]);
      hide Step, Coherent, OnlyFailing;
      RunIsCoherent(config, conditional, Step(config, conditional, previous, inputs[0]).stored, inputs[1..]);
    }
  }

  /** After every run the stored set tells exactly which checks are on the stored list of failed checks. */
  lemma FailureSetIsTheList(config: Config, conditional: bool, inputs: seq<Input>, name: string, conclusion: string)
    requires conclusion in FAILURE_CONCLUSIONS
    ensures var s := StateIn(Run(config, conditional, None, inputs).stored);
            s.available == Some(true) ==>
              && s.headSha.Some? && s.snapshot.Some? && s.snapshot.value.headSha == s.headSha.value
              && (Identity(s.headSha.value, name, conclusion) in s.failedIdentities <==> Lists(s.snapshot.value.failedChecks, name, conclusion))
  {
    RunIsCoherent(config, conditional, None, inputs);
    hide Run;
    var s := StateIn(Run(config, conditional, None, inputs).stored);
    if s.available == Some(true) { IdentitiesTellChecks(s.headSha.value, s.snapshot.value.failedChecks, name, conclusion); }
  }

  predicate Lists(checks: seq<FailedCheck>, name: string, conclusion: string) {
    exists i :: 0 <= i < |checks| && checks[i].name == name && checks[i].conclusion == conclusion
  }

  lemma IdentitiesTellChecks(head: string, checks: seq<FailedCheck>, name: string, conclusion: string)
    requires |head| == 40 && AllFailing(checks) && conclusion in FAILURE_CONCLUSIONS
    ensures Identity(head, name, conclusion) in FailedIdentities(head, checks) <==> Lists(checks, name, conclusion)
  {
    if Identity(head, name, conclusion) in FailedIdentities(head, checks) {
      var i :| 0 <= i < |checks| && Identity(head, name, conclusion) == Identity(head, checks[i].name, checks[i].conclusion);
      IdentityIsInjective(head, name, conclusion, head, checks[i].name, checks[i].conclusion);
    }
  }

  // ---- the list is cut, so the set need not be exact ----

  /** Every failing run past the limit repeats the name and conclusion of one within it. */
  ghost predicate AllListed(runs: seq<RawRun>, maxFailed: nat) {
    forall i :: maxFailed <= i < |Failures(runs)| ==>
      Lists(Normalized(runs, maxFailed).failedChecks, Failures(runs)[i].name, Failures(runs)[i].conclusion)
  }

  /** The failing runs all differ in name or conclusion. */
  ghost predicate FailuresDiffer(runs: seq<RawRun>) {
    forall i, j :: 0 <= i < j < |Failures(runs)| ==>
      Failures(runs)[i].name != Failures(runs)[j].name || Failures(runs)[i].conclusion != Failures(runs)[j].conclusion
  }

  /** The identities of the checks that fail, and of those the snapshot lists. */
  function FailingSet(head: string, runs: seq<RawRun>): set<string> { FailedIdentities(head, Failures(runs)) }

  function ListedSet(config: Config, head: string, runs: seq<RawRun>): set<string> {
    FailedIdentities(head, Normalized(runs, config.maxFailed).failedChecks)
  }

  /**
   What is listed is what fails exactly if every failing run past the limit repeats one within it; so it
   is whenever no more runs fail than the limit, and only then if the failing runs all differ.
   */
  lemma ListedIsFailingIff(config: Config, head: string, runs: seq<RawRun>)
    requires |head| == 40
    ensures ListedSet(config, head, runs) <= FailingSet(head, runs)
    ensures ListedSet(config, head, runs) == FailingSet(head, runs) <==> AllListed(runs, config.maxFailed)
    ensures Count(runs, Category.Failing) <= config.maxFailed ==> AllListed(runs, config.maxFailed)
    ensures FailuresDiffer(runs) ==> (AllListed(runs, config.maxFailed) <==> Count(runs, Category.Failing) <= config.maxFailed)
  {
    CountsPartitionRuns(runs, config.maxFailed);
    FailuresHaveFailureConclusions(runs);
    var all, listed := Failures(runs), Normalized(runs, config.maxFailed).failedChecks;
    hide Failures, Count, Identity;
    forall x | x in FailedIdentities(head, listed) ensures x in FailedIdentities(head, all) {
      var i :| 0 <= i < |listed| && x == Identity(head, listed[i].name, listed[i].conclusion);
      assert all[i] == listed[i];
    }
    if AllListed(runs, config.maxFailed) {
      forall x | x in FailedIdentities(head, all) ensures x in FailedIdentities(head, listed) {
        var i :| 0 <= i < |all| && x == Identity(head, all[i].name, all[i].conclusion);
        if i < |listed| {
          assert listed[i] == all[i];
        } else {
          IdentitiesTellChecks(head, listed, all[i].name, all[i].conclusion);
        }
      }
    }
    if FailedIdentities(head, listed) == FailedIdentities(head, all) {
      forall i | config.maxFailed <= i < |all| ensures Lists(listed, all[i].name, all[i].conclusion) {
        assert Identity(head, all[i].name, all[i].conclusion) in FailedIdentities(head, all);
        IdentitiesTellChecks(head, listed, all[i].name, all[i].conclusion);
      }
    }
    if FailuresDiffer(runs) && |all| > config.maxFailed {
      assert !Lists(listed, all[config.maxFailed].name, all[config.maxFailed].conclusion);
    }
  }

  /** What the events of a poll report as newly failing, and as recovered. */
  function ReportedFailing(bodies: seq<Body>): set<string> {
    set b | b in bodies && b.CheckFailed? :: Identity(b.head, b.check.name, b.check.conclusion)
  }

  function ReportedRecovered(bodies: seq<Body>): set<string> {
    set b | b in bodies && b.CheckRecovered? :: b.identity
  }

  lemma ReportsAdd(a: seq<Body>, b: seq<Body>)
    ensures ReportedFailing(a + b) == ReportedFailing(a) + ReportedFailing(b)
    ensures ReportedRecovered(a + b) == ReportedRecovered(a) + ReportedRecovered(b)
  {
    hide Identity;
    assert forall x :: x in a + b <==> x in a || x in b;
  }

  lemma {:induction false} NewFailuresReport(head: string, known: set<string>, checks: seq<FailedCheck>)
    ensures ReportedFailing(NewFailures(head, known, checks)) == FailedIdentities(head, checks) - known
    ensures ReportedRecovered(NewFailures(head, known, checks)) == {}
  {
    if checks != [] {
      var front, check := checks[..|checks| - 1], checks[|checks| - 1];
      NewFailuresReport(head, known, front);
      FailedIdentitiesSnoc(head, checks);
      NewFailuresSnoc(head, known, checks);
      hide NewFailures, FailedIdentities, Identity;
      ReportsAdd(NewFailures(head, known, front), if Identity(head, check.name, check.conclusion) in known then [] else [CheckFailed(head, check)]);
      assert ReportedFailing([CheckFailed(head, check)]) == {Identity(head, check.name, check.conclusion)} by {
        assert CheckFailed(head, check) in [CheckFailed(head, check)];
      }
    }
  }

  lemma RecoveriesReport(head: string, list: seq<string>)
    ensures ReportedFailing(Recoveries(head, list)) == {}
    ensures ReportedRecovered(Recoveries(head, list)) == (set x | x in list)
  {
    forall x | x in list ensures x in ReportedRecovered(Recoveries(head, list)) {
      var i :| 0 <= i < |list| && list[i] == x;
      assert Recoveries(head, list)[i] in Recoveries(head, list);
    }
  }

  /** On the head it knew, a poll reports what is newly listed and what is listed no more. */
  lemma ChangesReport(before: CIState, snapshot: Snapshot)
    requires before.headSha == Some(snapshot.headSha)
    ensures var listed := FailedIdentities(snapshot.headSha, snapshot.failedChecks);
            && ReportedFailing(Changes(before, snapshot)) == listed - before.failedIdentities
            && ReportedRecovered(Changes(before, snapshot)) == before.failedIdentities - listed
  {
    var head, was := snapshot.headSha, before.failedIdentities;
    var listed := FailedIdentities(head, snapshot.failedChecks);
    NewFailuresReport(head, was, snapshot.failedChecks);
    SortedListsTheSet(was - listed);
    RecoveriesReport(head, Sorted(was - listed));
    hide NewFailures, FailedIdentities, Sorted, Recoveries, Identity;
    var a, b, c, d, e := HeadPart(before, snapshot), StatusPart(before, snapshot), NewFailures(head, was, snapshot.failedChecks),
                         RecoveryPart(before, snapshot), NoChecksPart(before, snapshot);
    EndsReportNothing(before, snapshot);
    assert (set x | x in Sorted(was - listed)) == was - listed;
    hide HeadPart, StatusPart, NoChecksPart, ReportedFailing, ReportedRecovered;
    ReportsAddUp(a, b, c, d, e);
  }

  lemma ReportsAddUp(a: seq<Body>, b: seq<Body>, c: seq<Body>, d: seq<Body>, e: seq<Body>)
    ensures ReportedFailing(a + b + c + d + e)
         == ReportedFailing(a) + ReportedFailing(b) + ReportedFailing(c) + ReportedFailing(d) + ReportedFailing(e)
    ensures ReportedRecovered(a + b + c + d + e)
         == ReportedRecovered(a) + ReportedRecovered(b) + ReportedRecovered(c) + ReportedRecovered(d) + ReportedRecovered(e)
  {
    hide *;
    ReportsAdd(a + b + c + d, e);
    ReportsAdd(a + b + c, d);
    ReportsAdd(a + b, c);
    ReportsAdd(a, b);
  }

  lemma EndsReportNothing(before: CIState, snapshot: Snapshot)
    ensures ReportedFailing(HeadPart(before, snapshot)) == ReportedFailing(StatusPart(before, snapshot)) == {}
    ensures ReportedRecovered(HeadPart(before, snapshot)) == ReportedRecovered(StatusPart(before, snapshot)) == {}
    ensures ReportedFailing(NoChecksPart(before, snapshot)) == ReportedRecovered(NoChecksPart(before, snapshot)) == {}
  {
    hide Identity;
  }

  /**
   On the head it knew, a poll reports exactly the checks that newly fail and those that fail no more if
   and only if what the snapshot lists is what fails. Otherwise it calls a failing check recovered or is
   silent about one.
   */
  lemma ReportsAreTrueIff(config: Config, before: CIState, snapshot: Snapshot, runs: seq<RawRun>)
    requires before.headSha == Some(snapshot.headSha) && |snapshot.headSha| == 40
    requires snapshot.failedChecks == Normalized(runs, config.maxFailed).failedChecks
    ensures var failing, known, bodies := FailingSet(snapshot.headSha, runs), before.failedIdentities, Changes(before, snapshot);
            ReportedFailing(bodies) == failing - known && ReportedRecovered(bodies) == known - failing
            <==> AllListed(runs, config.maxFailed)
  {
    var head := snapshot.headSha;
    ChangesReport(before, snapshot);
    ListedIsFailingIff(config, head, runs);
    hide Changes, ReportedFailing, ReportedRecovered, FailedIdentities, AllListed, Failures;
    var failing, listed, known := FailingSet(head, runs), ListedSet(config, head, runs), before.failedIdentities;
    if listed - known == failing - known && known - listed == known - failing {
      forall x | x in failing ensures x in listed {
        assert x in known ==> x !in known - failing;
        assert x !in known ==> x in failing - known;
      }
      assert listed == failing;
    }
  }

  /** What a successful poll reads is what is served, whether it sends tags or not. */
  lemma ReadIsServed(config: Config, conditional: bool, previous: Option<Stored>, input: Input,
                     checksNamed: string -> seq<RawRun>, statusNamed: string -> LegacySummary)
    requires CacheBelongs(config, previous, checksNamed, statusNamed) && TagsLast(previous, [input])
    requires Truthful(input, checksNamed, statusNamed)
    requires Calls(previous, input.git, input.now) && input.world.Serving?
    ensures var head := Head(input.git).value;
            var read := Fetch(config, conditional, head, StateIn(previous).cache, input.world);
            && read.Some?
            && read.value.snapshot == Combine(head, Normalized(input.world.checks.data, config.maxFailed), input.world.status.data)
  {
    hide Normalized;
    var w := input.world;
    assert [input][0] == input;
    ConditionalReadIsFullRead(Head(input.git).value, StateIn(previous).cache, w.checks, w.status, w.repeatsTag, config.maxFailed, checksNamed, statusNamed);
    hide Combine, ChecksBelong, LegacyBelongs;
  }

  /**
   What a successful poll of `runs` makes of the checks: it stores the set of those it lists and, if it
   knew the head, reports what is newly listed and what is listed no more. This is the set that fails,
   and what newly fails and fails no more, if and only if every failing run past the limit repeats one
   within it.
   */
  ghost predicate TellsFailuresIff(config: Config, before: CIState, after: Outcome, head: string, runs: seq<RawRun>) {
    var failing, listed, known := FailingSet(head, runs), ListedSet(config, head, runs), before.failedIdentities;
    && Succeeded(StateIn(after.stored), head)
    && StateIn(after.stored).failedIdentities == listed
    && (listed == failing <==> AllListed(runs, config.maxFailed))
    && (before.available == Some(true) && before.headSha == Some(head) ==>
          var newly, recovered := ReportedFailing(Bodies(after.events)), ReportedRecovered(Bodies(after.events));
          && newly == listed - known && recovered == known - listed
          && (newly == failing - known && recovered == known - failing <==> AllListed(runs, config.maxFailed)))
  }

  /**
   In every run of the observer, and of one that always fetches in full, a successful poll leaves the set
   of the checks it lists, and its set and its reports are those of the checks that fail if and only if
   every failing run past the limit repeats one within it; no more failing runs than the limit is enough.
   */
  lemma FailureSetIsExactIff(config: Config, conditional: bool, inputs: seq<Input>, i: nat,
                             checksNamed: string -> seq<RawRun>, statusNamed: string -> LegacySummary)
    requires forall j :: 0 <= j < |inputs| ==> Truthful(inputs[j], checksNamed, statusNamed)
    requires StaysTagged(inputs) && i < |inputs| && inputs[i].world.Serving?
    requires Calls(Run(config, conditional, None, inputs[..i]).stored, inputs[i].git, inputs[i].now)
    ensures var previous := Run(config, conditional, None, inputs[..i]).stored;
            TellsFailuresIff(config, StateIn(previous), Step(config, conditional, previous, inputs[i]), Head(inputs[i].git).value,
                             inputs[i].world.checks.data)
    ensures Count(inputs[i].world.checks.data, Category.Failing) <= config.maxFailed ==> AllListed(inputs[i].world.checks.data, config.maxFailed)
  {
    var done, rest := inputs[..i], inputs[i..];
    assert done + rest == inputs && rest[0] == inputs[i];
    assert TagsLast(None, inputs) && CacheBelongs(config, None, checksNamed, statusNamed);
    CacheIsInvisibleSoFar(config, None, None, done, rest, checksNamed, statusNamed);
    var previous := Run(config, conditional, None, done).stored;
    assert StateIn(previous).cache == StateIn(Run(config, true, None, done).stored).cache;
    OneTagLasts(previous, rest);
    hide Run, TagsLast, Truthful, StaysTagged, CacheBelongs, TellsFailuresIff, Step, Count, AllListed;
    assert TagsLast(previous, [inputs[i]]) && CacheBelongs(config, previous, checksNamed, statusNamed);
    PollReports(config, conditional, previous, inputs[i], checksNamed, statusNamed);
  }

  lemma PollReports(config: Config, conditional: bool, previous: Option<Stored>, input: Input,
                    checksNamed: string -> seq<RawRun>, statusNamed: string -> LegacySummary)
    requires CacheBelongs(config, previous, checksNamed, statusNamed) && TagsLast(previous, [input])
    requires Truthful(input, checksNamed, statusNamed)
    requires Calls(previous, input.git, input.now) && input.world.Serving?
    ensures TellsFailuresIff(config, StateIn(previous), Step(config, conditional, previous, input), Head(input.git).value, input.world.checks.data)
    ensures Count(input.world.checks.data, Category.Failing) <= config.maxFailed ==> AllListed(input.world.checks.data, config.maxFailed)
  {
    var before, head, runs := StateIn(previous), Head(input.git).value, input.world.checks.data;
    var snapshot := Combine(head, Normalized(runs, config.maxFailed), input.world.status.data);
    ReadIsServed(config, conditional, previous, input, checksNamed, statusNamed);
    ListedIsFailingIff(config, head, runs);
    StepSaysReports(config, conditional, previous, input, snapshot);
    if before.available == Some(true) && before.headSha == Some(head) {
      ReportsAreTrueIff(config, before, snapshot, runs);
      ChangesReport(before, snapshot);
    }
    hide Changes, Step, Fetch, AllListed, Normalized, FailedIdentities, ReportedFailing, ReportedRecovered, Count, Failures;
  }

  predicate Succeeded(s: CIState, head: string) {
    s.available == Some(true) && s.headSha == Some(head) && s.backoffUntil.None?
  }

  /** A successful poll that reads `snapshot` stores its failed checks, and reports what the changes report. */
  lemma StepSaysReports(config: Config, conditional: bool, previous: Option<Stored>, input: Input, snapshot: Snapshot)
    requires Calls(previous, input.git, input.now) && input.world.Serving? && snapshot.headSha == Head(input.git).value
    requires var read := Fetch(config, conditional, Head(input.git).value, StateIn(previous).cache, input.world);
             read.Some? && read.value.snapshot == snapshot
    ensures var before, after := StateIn(previous), Step(config, conditional, previous, input);
            && Succeeded(StateIn(after.stored), snapshot.headSha)
            && StateIn(after.stored).failedIdentities == FailedIdentities(snapshot.headSha, snapshot.failedChecks)
            && (before.available == Some(true) && previous.Some? ==>
                  && ReportedFailing(Bodies(after.events)) == ReportedFailing(Changes(before, snapshot))
                  && ReportedRecovered(Bodies(after.events)) == ReportedRecovered(Changes(before, snapshot)))
  {
    hide Changes, CheckIncidents, ReadOf, FailedIdentities, Identity;
    var bodies := Changes(StateIn(previous), snapshot);
    var beat := [Heartbeat(SummaryOf(snapshot))];
    assert Bodies(Number(SequenceIn(previous), bodies)) == bodies && Bodies(Number(SequenceIn(previous), beat)) == beat;
    assert ReportedFailing(beat) == ReportedFailing([]) && ReportedRecovered(beat) == ReportedRecovered([]);
  }

  /** The input that fails: with a limit of one, `b` comes to fail before `a`, which still fails but is reported recovered. */
  lemma CutListMisreports(config: Config, conditional: bool, git: GitView, t1: int, t2: int, repeats: bool)
    requires Head(git).Some? && config.maxFailed == 1
    ensures var status := Representation(LegacySummary(0, "pending"), Some("s"));
            var a := CheckRun("completed", Some("failure"), "a", None, "", "1");
            var b := CheckRun("completed", Some("failure"), "b", None, "", "2");
            var first := Input(git, t1, Serving(Representation([a], Some("t1")), status, repeats));
            var second := Input(git, t2, Serving(Representation([b, a], Some("t2")), status, repeats));
            var id := Identity(Head(git).value, "a", "failure");
            var two := Step(config, conditional, Run(config, conditional, None, [first]).stored, second);
            && id in FailingSet(Head(git).value, [b, a])
            && id in ReportedRecovered(Bodies(two.events)) && id !in StateIn(two.stored).failedIdentities
  {
    var status := Representation(LegacySummary(0, "pending"), Some("s"));
    var a := CheckRun("completed", Some("failure"), "a", None, "", "1");
    var b := CheckRun("completed", Some("failure"), "b", None, "", "2");
    var first := Input(git, t1, Serving(Representation([a], Some("t1")), status, repeats));
    var second := Input(git, t2, Serving(Representation([b, a], Some("t2")), status, repeats));
    var inputs := [first, second];
    var checksNamed: string -> seq<RawRun> := t => if t == "t1" then [a] else [b, a];
    var statusNamed: string -> LegacySummary := t => LegacySummary(0, "pending");
    hide Run, Step, ListedSet, FailingSet, ReportedFailing, ReportedRecovered, AllListed, Count, Identity, Truthful, StaysTagged;
    RunOfOne(config, conditional, first);
    assert inputs[..0] == [] && inputs[..1] == [first];
    AllTagged(first, second, checksNamed, statusNamed);
    CutLists(config, Head(git).value, a, b);
    assert Calls(None, git, t1);
    FailureSetIsExactIff(config, conditional, inputs, 0, checksNamed, statusNamed);
    FailureSetIsExactIff(config, conditional, inputs, 1, checksNamed, statusNamed);
  }

  lemma AllTagged(first: Input, second: Input, checksNamed: string -> seq<RawRun>, statusNamed: string -> LegacySummary)
    requires first.world.Serving? && first.world.checks == Representation(checksNamed("t1"), Some("t1"))
    requires second.world.Serving? && second.world.checks == Representation(checksNamed("t2"), Some("t2"))
    requires first.world.status == second.world.status == Representation(statusNamed("s"), Some("s"))
    ensures Truthful(first, checksNamed, statusNamed) && Truthful(second, checksNamed, statusNamed) && StaysTagged([first, second])
  {
  }

  lemma RunOfOne(config: Config, conditional: bool, input: Input)
    ensures Run(config, conditional, None, []).stored == None
    ensures Run(config, conditional, None, [input]).stored == Step(config, conditional, None, input).stored
  {
    hide Step;
    assert [input][1..] == [];
  }

  lemma CutLists(config: Config, head: string, a: RawRun, b: RawRun)
    requires |head| == 40 && config.maxFailed == 1
    requires a == CheckRun("completed", Some("failure"), "a", None, "", "1") && b == CheckRun("completed", Some("failure"), "b", None, "", "2")
    ensures var id := Identity(head, "a", "failure");
            id in ListedSet(config, head, [a]) && id !in ListedSet(config, head, [b, a]) && id in FailingSet(head, [b, a])
  {
    assert [a][..0] == [] && [b, a][..1] == [b] && [b][..0] == [];
    assert Failures([a]) == [AsFailed(a)] && Failures([b, a]) == [AsFailed(b), AsFailed(a)];
    assert Normalized([a], 1).failedChecks == [AsFailed(a)] && Normalized([b, a], 1).failedChecks == [AsFailed(b)];
    IdentityIsInjective(head, "a", "failure", head, "b", "failure");
    assert AsFailed(a).name == "a" && AsFailed(b).name == "b";
    hide Identity, Failures, FailedIdentities, Normalized;
    IdentitiesOf(head, AsFailed(a), AsFailed(a));
    IdentitiesOf(head, AsFailed(b), AsFailed(a));
  }

  lemma IdentitiesOf(head: string, c: FailedCheck, d: FailedCheck)
    ensures FailedIdentities(head, [c]) == {Identity(head, c.name, c.conclusion)}
    ensures FailedIdentities(head, [c, d]) == {Identity(head, c.name, c.conclusion), Identity(head, d.name, d.conclusion)}
  {
    FailedIdentitiesSnoc(head, [c, d]);
    FailedIdentitiesSnoc(head, [c]);
    assert [c, d][..1] == [c] && [c][..0] == [];
  }

  // ---- backoff ----

  /** When the provider was asked, over a run. */
  ghost function CallTimes(config: Config, conditional: bool, previous: Option<Stored>, inputs: seq<Input>): seq<int>
    decreases |inputs|
  {
    if inputs == [] then []
    else
      (if Calls(previous, inputs[0].git, inputs[0].now) then [inputs[0].now] else [])
      + CallTimes(config, conditional, Step(config, conditional, previous, inputs[0]).stored, inputs[1..])
  }

  /** Git state is there, and if asked the provider fails with `kind`, without naming a future rate-limit reset. */
  predicate KeepsFailing(kind: string, input: Input) {
    && Head(input.git).Some?
    && input.world.Failing? && input.world.kind == kind && kind != "auth_failed"
    && (kind == "rate_limited" ==> input.world.reset.None? || input.world.reset.value <= input.now)
  }

  /** The stored backoff after `attempt` failures of one kind in a row, the last one at `at`. */
  predicate BacksOff(s: Option<Stored>, kind: string, attempt: nat, at: int) {
    && StateIn(s).errorKind == Some(kind)
    && StateIn(s).backoffAttempt == attempt
    && StateIn(s).backoffUntil == Some(at + Delay(attempt))
  }

  lemma FailingStep(config: Config, conditional: bool, previous: Option<Stored>, input: Input, kind: string)
    requires KeepsFailing(kind, input)
    ensures var next := Step(config, conditional, previous, input).stored;
            if Calls(previous, input.git, input.now) then BacksOff(next, kind, Attempt(StateIn(previous), kind), input.now)
            else StateIn(next) == StateIn(previous)
  {
    hide Number, CheckIncidents, Delay;
  }

  lemma {:induction false} FurtherCallsWait(config: Config, conditional: bool, previous: Option<Stored>, inputs: seq<Input>,
                                            kind: string, attempt: nat, at: int)
    requires forall i :: 0 <= i < |inputs| ==> KeepsFailing(kind, inputs[i])
    requires BacksOff(previous, kind, attempt, at)
    ensures var t := [at] + CallTimes(config, conditional, previous, inputs);
            && Spaced(attempt, t)
            && BacksOff(Run(config, conditional, previous, inputs).stored, kind, attempt + |t| - 1, t[|t| - 1])
    decreases |inputs|
  {
    if inputs == [] {
      assert Spaced(attempt, [at]);
    } else {
      FailingStepMovesBackoff(config, conditional, previous, inputs[0], kind, attempt, at);
      RunUnfolds(config, conditional, previous, inputs);
      hide *;
      var next := Step(config, conditional, previous, inputs[0]).stored;
      var calls := Calls(previous, inputs[0].git, inputs[0].now);
      var attempt', at' := if calls then attempt + 1 else attempt, if calls then inputs[0].now else at;
      FurtherCallsWait(config, conditional, next, inputs[1..], kind, attempt', at');
      var rest := CallTimes(config, conditional, next, inputs[1..]);
      if calls { SpacedCons(attempt, at, [at'] + rest); }
      assert [at] + CallTimes(config, conditional, previous, inputs) == if calls then [at] + ([at'] + rest) else [at'] + rest;
    }
  }

  lemma FailingStepMovesBackoff(config: Config, conditional: bool, previous: Option<Stored>, input: Input, kind: string, attempt: nat, at: int)
    requires KeepsFailing(kind, input) && BacksOff(previous, kind, attempt, at)
    ensures var next := Step(config, conditional, previous, input).stored;
            if Calls(previous, input.git, input.now) then BacksOff(next, kind, attempt + 1, input.now) && input.now - at >= Delay(attempt)
            else BacksOff(next, kind, attempt, at)
  {
    FailingStep(config, conditional, previous, input, kind);
    hide Step, Delay, KeepsFailing;
  }

  lemma RunUnfolds(config: Config, conditional: bool, previous: Option<Stored>, inputs: seq<Input>)
    requires inputs != []
    ensures var next := Step(config, conditional, previous, inputs[0]).stored;
            && Run(config, conditional, previous, inputs).stored == Run(config, conditional, next, inputs[1..]).stored
            && CallTimes(config, conditional, previous, inputs)
               == (if Calls(previous, inputs[0].git, inputs[0].now) then [inputs[0].now] else []) + CallTimes(config, conditional, next, inputs[1..])
  {
    hide Step, Calls;
  }

  /** The gaps of a list of times are at least the delays from the `attempt`-th on. */
  ghost predicate Spaced(attempt: nat, t: seq<int>) {
    forall k :: 0 <= k < |t| - 1 ==> t[k + 1] - t[k] >= Delay(attempt + k)
  }

  lemma SpacedCons(attempt: nat, at: int, u: seq<int>)
    requires Spaced(attempt + 1, u) && u != [] && u[0] - at >= Delay(attempt)
    ensures Spaced(attempt, [at] + u)
  {
    hide Delay;
    var t := [at] + u;
    forall k | 0 <= k < |t| - 1 ensures t[k + 1] - t[k] >= Delay(attempt + k) {
      if k > 0 { assert u[k - 1 + 1] - u[k - 1] >= Delay(attempt + 1 + (k - 1)); }
    }
  }

  /**
   However many polls are skipped in between, the call after the k-th failure of one kind in a row
   comes no sooner than min(60 * 2^(k-1), 900) seconds after it, and then any poll makes it.
   */
  lemma BackoffLaw(config: Config, conditional: bool, previous: Option<Stored>, inputs: seq<Input>, kind: string)
    requires forall i :: 0 <= i < |inputs| ==> KeepsFailing(kind, inputs[i])
    requires StateIn(previous).errorKind != Some(kind) && inputs != [] && Calls(previous, inputs[0].git, inputs[0].now)
    ensures var t := CallTimes(config, conditional, previous, inputs);
            && |t| > 0
            && Spaced(1, t)
            && (forall git: GitView, now :: Calls(Run(config, conditional, previous, inputs).stored, git, now)
                  <==> Head(git).Some? && now >= t[|t| - 1] + Delay(|t|))
  {
    FailingStep(config, conditional, previous, inputs[0], kind);
    hide Step, Delay, KeepsFailing;
    var next := Step(config, conditional, previous, inputs[0]).stored;
    FurtherCallsWait(config, conditional, next, inputs[1..], kind, 1, inputs[0].now);
  }

  /** Five failures or more spread over at least 900 seconds for each one past the fourth. */
  lemma FailingCallsAreSpread(config: Config, conditional: bool, previous: Option<Stored>, inputs: seq<Input>, kind: string)
    requires forall i :: 0 <= i < |inputs| ==> KeepsFailing(kind, inputs[i])
    requires StateIn(previous).errorKind != Some(kind) && inputs != [] && Calls(previous, inputs[0].git, inputs[0].now)
    ensures var t := CallTimes(config, conditional, previous, inputs);
            |t| >= 5 ==> t[|t| - 1] - t[0] >= 900 * (|t| - 4)
  {
    BackoffLaw(config, conditional, previous, inputs, kind);
    var t := CallTimes(config, conditional, previous, inputs);
    if |t| >= 5 { SpreadOf(t); }
  }

  lemma {:induction false} SpreadOf(t: seq<int>)
    requires |t| >= 5 && Spaced(1, t)
    ensures t[|t| - 1] - t[0] >= 900 * (|t| - 4)
  {
    if |t| == 5 {
      assert t[1] - t[0] >= Delay(1) == 60;
      assert t[2] - t[1] >= Delay(2) == 120;
      assert t[3] - t[2] >= Delay(3) == 240;
      assert t[4] - t[3] >= Delay(4) == 480;
    } else {
      var front := t[..|t| - 1];
      assert Spaced(1, front) by {
        forall k | 0 <= k < |front| - 1 ensures front[k + 1] - front[k] >= Delay(1 + k) { assert t[k + 1] - t[k] >= Delay(1 + k); }
      }
      SpreadOf(front);
      Pow2AtLeast(|t| - 2);
      assert t[|t| - 2 + 1] - t[|t| - 2] >= Delay(1 + (|t| - 2));
    }
  }

  lemma {:induction false} Pow2AtLeast(n: nat)
    requires n >= 4
    ensures Pow2(n) >= 16
  {
    if n == 4 { assert Pow2(4) == 2 * Pow2(3) && Pow2(3) == 2 * Pow2(2); } else { Pow2AtLeast(n - 1); }
  }

  /** A poll without Git state forgets the backoff: the next one with it asks the provider, whatever the time. */
  lemma BlockedPollForgetsBackoff(config: Config, conditional: bool, previous: Option<Stored>, input: Input, git: GitView, now: int)
    requires Head(input.git).None?
    ensures Calls(Step(config, conditional, previous, input).stored, git, now) <==> Head(git).Some?
  {
  }

  /** After a failure: a future reset is waited for, a failed login for 300 seconds, anything else for its delay. */
  lemma NextCallAfterFailure(config: Config, conditional: bool, previous: Option<Stored>, input: Input, git: GitView, now: int)
    requires Calls(previous, input.git, input.now) && input.world.Failing?
    ensures var next := Step(config, conditional, previous, input).stored;
            var kind, reset := input.world.kind, input.world.reset;
            Calls(next, git, now) <==>
              Head(git).Some? && now >= (if kind == "rate_limited" && reset.Some? && reset.value > input.now then reset.value
                                         else if kind == "auth_failed" then input.now + 300
                                         else input.now + Delay(Attempt(StateIn(previous), kind)))
  {
    hide Delay, Number, CheckIncidents;
  }

  // ---- trouble is reported once ----

  predicate FailsWith(kind: string, input: Input) {
    Head(input.git).Some? && input.world.Failing? && input.world.kind == kind
  }

  predicate KnownTrouble(s: Option<Stored>, kind: string) {
    StateIn(s).available == Some(false) && StateIn(s).errorKind == Some(kind)
  }

  lemma FailingStepSays(config: Config, conditional: bool, previous: Option<Stored>, input: Input, kind: string)
    requires FailsWith(kind, input)
    ensures var after := Step(config, conditional, previous, input);
            if !Calls(previous, input.git, input.now) then after.events == [] && StateIn(after.stored) == StateIn(previous)
            else |after.events| == (if KnownTrouble(previous, kind) then 0 else 1) && KnownTrouble(after.stored, kind)
  {
    hide CheckIncidents, BackoffUntil;
  }

  /** However many polls fail with one kind in a row, one event says so; none if it was known before or nobody asked. */
  lemma {:induction false} StreakSaysOnce(config: Config, conditional: bool, previous: Option<Stored>, inputs: seq<Input>, kind: string)
    requires forall i :: 0 <= i < |inputs| ==> FailsWith(kind, inputs[i])
    ensures |Run(config, conditional, previous, inputs).events|
         == if CallTimes(config, conditional, previous, inputs) == [] || KnownTrouble(previous, kind) then 0 else 1
    decreases |inputs|
  {
    if inputs != [] {
      FailingStepSays(config, conditional, previous, inputs[0], kind);
      hide Step, FailsWith, Calls;
      var first := Step(config, conditional, previous, inputs[0]);
      StreakSaysOnce(config, conditional, first.stored, inputs[1..], kind);
    }
  }

  lemma BlockedStepSays(config: Config, conditional: bool, previous: Option<Stored>, input: Input)
    requires Head(input.git).None?
    ensures var after := Step(config, conditional, previous, input);
            |after.events| == (if StateIn(previous).blocked then 0 else 1) && StateIn(after.stored).blocked
  {
    hide CheckIncidents;
  }

  /** And so for polls without Git state. */
  lemma {:induction false} BlockedSaysOnce(config: Config, conditional: bool, previous: Option<Stored>, inputs: seq<Input>)
    requires forall i :: 0 <= i < |inputs| ==> Head(inputs[i].git).None?
    ensures |Run(config, conditional, previous, inputs).events| == if inputs == [] || StateIn(previous).blocked then 0 else 1
    decreases |inputs|
  {
    if inputs != [] {
      BlockedStepSays(config, conditional, previous, inputs[0]);
      hide Step, Head;
      BlockedSaysOnce(config, conditional, Step(config, conditional, previous, inputs[0]).stored, inputs[1..]);
    }
  }

  // ---- heartbeats ----

  function Nows(inputs: seq<Input>): (nows: seq<int>)
    ensures |nows| == |inputs| && forall i :: 0 <= i < |inputs| ==> nows[i] == inputs[i].now
  {
    seq(|inputs|, i requires 0 <= i < |inputs| => inputs[i].now)
  }

  ghost predicate Beats(config: Config, conditional: bool, previous: Option<Stored>, input: Input) {
    var events := Step(config, conditional, previous, input).events;
    events != [] && events[0].body.Heartbeat?
  }

  /** When heartbeats are emitted. */
  ghost function Heartbeats(config: Config, conditional: bool, previous: Option<Stored>, inputs: seq<Input>): seq<int>
    decreases |inputs|
  {
    if inputs == [] then []
    else
      (if Beats(config, conditional, previous, inputs[0]) then [inputs[0].now] else [])
      + Heartbeats(config, conditional, Step(config, conditional, previous, inputs[0]).stored, inputs[1..])
  }

  lemma ChangesAreNoHeartbeats(before: CIState, snapshot: Snapshot)
    ensures Changes(before, snapshot) != [] ==> !Changes(before, snapshot)[0].Heartbeat?
  {
    FailuresAreNoHeartbeats(snapshot.headSha, before.failedIdentities, snapshot.failedChecks);
    hide NewFailures, Sorted, FailedIdentities, OverallIn;
    var c, d := NewFailures(snapshot.headSha, before.failedIdentities, snapshot.failedChecks), RecoveryPart(before, snapshot);
    assert forall i :: 0 <= i < |d| ==> d[i].CheckRecovered?;
  }

  lemma {:induction false} FailuresAreNoHeartbeats(head: string, known: set<string>, checks: seq<FailedCheck>)
    ensures forall i :: 0 <= i < |NewFailures(head, known, checks)| ==> NewFailures(head, known, checks)[i].CheckFailed?
  {
    if checks != [] { FailuresAreNoHeartbeats(head, known, checks[..|checks| - 1]); }
  }

  /** A heartbeat is at least heartbeat_seconds after the time stored; every poll keeps that time or sets it to now. */
  lemma StepPace(config: Config, conditional: bool, previous: Option<Stored>, input: Input, last: int)
    requires previous.Some? && StateIn(previous).lastHeartbeatAt == Some(last)
    ensures var next := Step(config, conditional, previous, input).stored;
            && next.Some? && StateIn(next).lastHeartbeatAt in {Some(last), Some(input.now)}
            && (Beats(config, conditional, previous, input) ==>
                  input.now - last >= config.heartbeatSeconds && StateIn(next).lastHeartbeatAt == Some(input.now))
  {
    hide Changes, CheckIncidents, BackoffUntil, ReadOf, FailedIdentities;
    if Head(input.git).Some? && Calls(previous, input.git, input.now) && input.world.Serving? {
      var read := Fetch(config, conditional, Head(input.git).value, StateIn(previous).cache, input.world);
      if read.Some? { ChangesAreNoHeartbeats(StateIn(previous), read.value.snapshot); }
    }
  }

  /** With a clock that does not run backwards heartbeats are at least heartbeat_seconds apart, across outages and blocked polls too. */
  lemma {:induction false} HeartbeatsAreSpaced(config: Config, conditional: bool, previous: Option<Stored>, inputs: seq<Input>, last: int, from: int)
    requires previous.Some? && StateIn(previous).lastHeartbeatAt == Some(last)
    requires last <= from && SpacedBy(0, from, Nows(inputs))
    ensures var beats := Heartbeats(config, conditional, previous, inputs);
            SpacedBy(config.heartbeatSeconds, last, beats) && Last(last, beats) <= Last(from, Nows(inputs))
    decreases |inputs|
  {
    if inputs != [] {
      StepPace(config, conditional, previous, inputs[0], last);
      hide Step, Beats;
      var now, next := inputs[0].now, Step(config, conditional, previous, inputs[0]).stored;
      var last' := StateIn(next).lastHeartbeatAt.value;
      assert Nows(inputs)[1..] == Nows(inputs[1..]);
      HeartbeatsAreSpaced(config, conditional, next, inputs[1..], last', now);
      var later := Heartbeats(config, conditional, next, inputs[1..]);
      LastOfRest(from, Nows(inputs));
      if Beats(config, conditional, previous, inputs[0]) {
        var beats := [now] + later;
        assert beats[1..] == later;
        LastOfRest(last, beats);
      } else {
        assert [] + later == later;
        SpacedLater(config.heartbeatSeconds, last, last', later);
      }
    }
  }
}
