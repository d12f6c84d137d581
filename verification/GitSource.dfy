/** Reducing Git snapshots to events: `GitSourceObserver.observe` as a method and as a function, over runs of polls. */
module GitSource {
  import opened Common
  import opened Pacing

  datatype GitSnapshot = GitSnapshot(
    head: Option<string>, branch: Option<string>, detached: bool, upstream: Option<string>, ahead: nat, behind: nat,
    staged: nat, unstaged: nat, untracked: nat, conflicts: nat, dirty: bool, changeFingerprint: string)

  /** What the provider gives: a snapshot, or an exception of some type. */
  datatype Outcome = Fails(errorKind: string) | Gives(snapshot: GitSnapshot)

  datatype Stored = Stored(sequence: nat, last: Outcome, heartbeatAt: int)

  datatype Config = Config(projectId: string, sourceId: string, heartbeatSeconds: nat)

  datatype Summary = Summary(head: Option<string>, branch: Option<string>, detached: bool, ahead: nat, behind: nat, dirty: bool)

  datatype Counts = Counts(staged: nat, unstaged: nat, untracked: nat, conflicts: nat)

  datatype Body =
    | ProviderUnavailable(errorKind: string)
    | Available(summary: Summary)
    | Recovered(summary: Summary)
    | Heartbeat(summary: Summary)
    | HeadChanged(before: Option<string>, current: Option<string>)
    | BranchChanged(before: Option<string>, current: Option<string>)
    | DetachedEntered
    | DetachedCleared
    | DirtyEntered(counts: Counts)
    | DirtyCleared(counts: Counts)
    | ConflictEntered(conflictCount: nat)
    | ConflictCleared(conflictCount: nat)
    | AheadChanged(from: nat, to: nat)
    | BehindChanged(from: nat, to: nat)

  datatype Fingerprint = Fingerprint(projectId: string, sourceId: string, head: Option<string>)

  datatype Observation = Observation(events: seq<Event<Body>>, stored: Stored, incidents: seq<(Fingerprint, Event<Body>)>)

  function SummaryOf(s: GitSnapshot): Summary { Summary(s.head, s.branch, s.detached, s.ahead, s.behind, s.dirty) }

  function CountsOf(s: GitSnapshot): Counts { Counts(s.staged, s.unstaged, s.untracked, s.conflicts) }

  // ---- the specification of one poll ----

  function OneIf(condition: bool, body: Body): seq<Body> { if condition then [body] else [] }

  /** The differences between two snapshots. */
  function Transitions(p: GitSnapshot, c: GitSnapshot): seq<Body> {
    RefTransitions(p, c) + TreeTransitions(p, c)
  }

  function RefTransitions(p: GitSnapshot, c: GitSnapshot): seq<Body> {
    OneIf(p.head != c.head, HeadChanged(p.head, c.head))
    + OneIf(p.branch != c.branch, BranchChanged(p.branch, c.branch))
    + OneIf(p.detached != c.detached, if c.detached then DetachedEntered else DetachedCleared)
  }

  function TreeTransitions(p: GitSnapshot, c: GitSnapshot): seq<Body> {
    OneIf(p.dirty != c.dirty, if c.dirty then DirtyEntered(CountsOf(c)) else DirtyCleared(CountsOf(c)))
    + OneIf((p.conflicts == 0) != (c.conflicts == 0),
            if c.conflicts > 0 then ConflictEntered(c.conflicts) else ConflictCleared(c.conflicts))
    + OneIf(p.ahead != c.ahead, AheadChanged(p.ahead, c.ahead))
    + OneIf(p.behind != c.behind, BehindChanged(p.behind, c.behind))
  }

  function SequenceIn(previous: Option<Stored>): nat { if previous.Some? then previous.value.sequence else 0 }

  /** What a poll says, except for a heartbeat. */
  function Reported(previous: Option<Stored>, outcome: Outcome): seq<Body> {
    match outcome
    case Fails(kind) => if previous.Some? && previous.value.last == outcome then [] else [ProviderUnavailable(kind)]
    case Gives(current) =>
      if previous.None? then [Available(SummaryOf(current))]
      else if previous.value.last.Fails? then [Recovered(SummaryOf(current))]
      else Transitions(previous.value.last.snapshot, current)
  }

  predicate Beats(config: Config, previous: Option<Stored>, now: int, outcome: Outcome) {
    && outcome.Gives? && previous.Some? && Reported(previous, outcome) == []
    && now - previous.value.heartbeatAt >= config.heartbeatSeconds
  }

  function Said(config: Config, previous: Option<Stored>, now: int, outcome: Outcome): seq<Body> {
    if Beats(config, previous, now, outcome) then [Heartbeat(SummaryOf(outcome.snapshot))] else Reported(previous, outcome)
  }

  /** Transitions leave the heartbeat time alone; only the first snapshot, a recovery and a heartbeat set it. */
  function HeartbeatAfter(config: Config, previous: Option<Stored>, now: int, outcome: Outcome): int {
    if previous.None? || (outcome.Gives? && previous.value.last.Fails?) || Beats(config, previous, now, outcome) then now
    else previous.value.heartbeatAt
  }

  function ConflictIncidents(config: Config, head: Option<string>, events: seq<Event<Body>>): seq<(Fingerprint, Event<Body>)> {
    if events == [] then []
    else
      var last := events[|events| - 1];
      ConflictIncidents(config, head, events[..|events| - 1])
      + (if last.body.ConflictEntered? then [(Fingerprint(config.projectId, config.sourceId, head), last)] else [])
  }

  function Poll(config: Config, previous: Option<Stored>, now: int, outcome: Outcome): Observation {
    var bodies := Said(config, previous, now, outcome);
    var events := Number(SequenceIn(previous), bodies);
    Observation(events,
                Stored(SequenceIn(previous) + |bodies|, outcome, HeartbeatAfter(config, previous, now, outcome)),
                if outcome.Gives? then ConflictIncidents(config, outcome.snapshot.head, events) else [])
  }

  // ---- the observer ----

  /** `_transitions`. */
  method ListTransitions(p: GitSnapshot, c: GitSnapshot) returns (items: seq<Body>)
    ensures items == Transitions(p, c)
  {
    hide OneIf, CountsOf;
    items := [];
    AppendOneIf(items, p.head != c.head, HeadChanged(p.head, c.head));
    if p.head != c.head { items := items + [HeadChanged(p.head, c.head)]; }
    AppendOneIf(items, p.branch != c.branch, BranchChanged(p.branch, c.branch));
    if p.branch != c.branch { items := items + [BranchChanged(p.branch, c.branch)]; }
    var detached := if c.detached then DetachedEntered else DetachedCleared;
    AppendOneIf(items, p.detached != c.detached, detached);
    if p.detached != c.detached { items := items + [detached]; }
    assert items == RefTransitions(p, c) by {
      assert [] + OneIf(p.head != c.head, HeadChanged(p.head, c.head)) == OneIf(p.head != c.head, HeadChanged(p.head, c.head));
    }
    hide RefTransitions;
    var refs := items;
    var dirty := if c.dirty then DirtyEntered(CountsOf(c)) else DirtyCleared(CountsOf(c));
    AppendOneIf(items, p.dirty != c.dirty, dirty);
    if p.dirty != c.dirty { items := items + [dirty]; }
    var conflict := if c.conflicts > 0 then ConflictEntered(c.conflicts) else ConflictCleared(c.conflicts);
    AppendOneIf(items, (p.conflicts == 0) != (c.conflicts == 0), conflict);
    if (p.conflicts == 0) != (c.conflicts == 0) { items := items + [conflict]; }
    AppendOneIf(items, p.ahead != c.ahead, AheadChanged(p.ahead, c.ahead));
    if p.ahead != c.ahead { items := items + [AheadChanged(p.ahead, c.ahead)]; }
    AppendOneIf(items, p.behind != c.behind, BehindChanged(p.behind, c.behind));
    if p.behind != c.behind { items := items + [BehindChanged(p.behind, c.behind)]; }
    assert items == RefTransitions(p, c) + TreeTransitions(p, c) by {
      Regroup(refs, OneIf(p.dirty != c.dirty, dirty), OneIf((p.conflicts == 0) != (c.conflicts == 0), conflict),
              OneIf(p.ahead != c.ahead, AheadChanged(p.ahead, c.ahead)), OneIf(p.behind != c.behind, BehindChanged(p.behind, c.behind)));
    }
  }

  lemma Regroup(a: seq<Body>, b: seq<Body>, c: seq<Body>, d: seq<Body>, e: seq<Body>)
    ensures a + b + c + d + e == a + (b + c + d + e)
  {
  }

  lemma AppendOneIf(items: seq<Body>, condition: bool, body: Body)
    ensures items + OneIf(condition, body) == if condition then items + [body] else items
  {
  }

  /** The loop over the transitions: numbers each and turns an entered conflict into an incident candidate. */
  method Emit(config: Config, head: Option<string>, from: nat, transitions: seq<Body>)
    returns (sequence: nat, events: seq<Event<Body>>, incidents: seq<(Fingerprint, Event<Body>)>)
    ensures events == Number(from, transitions) && sequence == from + |transitions|
    ensures incidents == ConflictIncidents(config, head, events)
  {
    sequence, events, incidents := from, [], [];
    for i := 0 to |transitions|
      invariant events == Number(from, transitions[..i]) && sequence == from + i
      invariant incidents == ConflictIncidents(config, head, events)
    {
      sequence := sequence + 1;
      var event := Event(sequence, transitions[i]);
      ghost var was := events;
      events := events + [event];
      assert events[..|events| - 1] == was;
      if event.body.ConflictEntered? {
        incidents := incidents + [(Fingerprint(config.projectId, config.sourceId, head), event)];
      }
    }
    assert transitions[..|transitions|] == transitions;
  }

  lemma NoIncident(config: Config, head: Option<string>, event: Event<Body>)
    requires !event.body.ConflictEntered?
    ensures ConflictIncidents(config, head, [event]) == [] == ConflictIncidents(config, head, [])
  {
    assert [event][..0] == [];
  }

  /** `observe`. */
  method Observe(config: Config, previous: Option<Stored>, now: int, outcome: Outcome) returns (observation: Observation)
    ensures observation == Poll(config, previous, now, outcome)
  {
    hide Transitions, ConflictIncidents;
    var sequence := SequenceIn(previous);
    var events: seq<Event<Body>> := [];
    var incidents: seq<(Fingerprint, Event<Body>)> := [];
    match outcome {
      case Fails(kind) =>
        if previous.None? || previous.value.last.Gives? || previous.value.last.errorKind != kind {
          sequence := sequence + 1;
          events := events + [Event(sequence, ProviderUnavailable(kind))];
        }
        assert events == Number(SequenceIn(previous), Said(config, previous, now, outcome));
        return Observation(events, Stored(sequence, outcome, if previous.Some? then previous.value.heartbeatAt else now), incidents);
      case Gives(current) =>
        var heartbeat := now;
        if previous.None? {
          sequence := sequence + 1;
          events := events + [Event(sequence, Available(SummaryOf(current)))];
          assert events == [events[0]];
          NoIncident(config, current.head, events[0]);
        } else if previous.value.last.Fails? {
          sequence := sequence + 1;
          events := events + [Event(sequence, Recovered(SummaryOf(current)))];
          assert events == [events[0]];
          NoIncident(config, current.head, events[0]);
        } else {
          heartbeat := previous.value.heartbeatAt;
          var transitions := ListTransitions(previous.value.last.snapshot, current);
          sequence, events, incidents := Emit(config, current.head, sequence, transitions);
          if transitions == [] && now - heartbeat >= config.heartbeatSeconds {
            assert events == [];
            sequence := sequence + 1;
            events := events + [Event(sequence, Heartbeat(SummaryOf(current)))];
            assert events == [events[0]];
            NoIncident(config, current.head, events[0]);
            heartbeat := now;
          }
        }
        assert events == Number(SequenceIn(previous), Said(config, previous, now, outcome));
        assert incidents == ConflictIncidents(config, current.head, events);
        assert heartbeat == HeartbeatAfter(config, previous, now, outcome);
        observation := Observation(events, Stored(sequence, outcome, heartbeat), incidents);
    }
  }

  lemma PollIsConsecutive(config: Config, previous: Option<Stored>, now: int, outcome: Outcome)
    ensures var o := Poll(config, previous, now, outcome);
            Consecutive(SequenceIn(previous), o.events, o.stored.sequence)
  {
    hide Said, ConflictIncidents;
  }

  // ---- runs ----

  datatype Input = Input(now: int, outcome: Outcome)

  datatype Trace = Trace(bodies: seq<Body>, stored: Option<Stored>)

  function Run(config: Config, previous: Option<Stored>, inputs: seq<Input>): Trace
    decreases |inputs|
  {
    if inputs == [] then Trace([], previous)
    else
      var first := Poll(config, previous, inputs[0].now, inputs[0].outcome);
      var rest := Run(config, Some(first.stored), inputs[1..]);
      Trace(Bodies(first.events) + rest.bodies, rest.stored)
  }

  lemma PollSays(config: Config, previous: Option<Stored>, now: int, outcome: Outcome)
    ensures Bodies(Poll(config, previous, now, outcome).events) == Said(config, previous, now, outcome)
  {
    hide Said, ConflictIncidents;
  }

  // ---- exactly what a poll says ----

  predicate Sums(s: Summary, g: GitSnapshot) {
    s.head == g.head && s.branch == g.branch && s.detached == g.detached && s.ahead == g.ahead && s.behind == g.behind && s.dirty == g.dirty
  }

  predicate CountsTree(n: Counts, g: GitSnapshot) {
    n.staged == g.staged && n.unstaged == g.unstaged && n.untracked == g.untracked && n.conflicts == g.conflicts
  }

  /** The two snapshots differ in something that is reported. */
  predicate Differ(p: GitSnapshot, c: GitSnapshot) {
    || p.head != c.head || p.branch != c.branch || p.detached != c.detached || p.dirty != c.dirty
    || (p.conflicts > 0) != (c.conflicts > 0) || p.ahead != c.ahead || p.behind != c.behind
  }

  /** What the outcome before, if there was a poll before, and the outcome now justify saying. */
  predicate Justified(last: Option<Outcome>, outcome: Outcome, due: bool, body: Body) {
    var both := last.Some? && last.value.Gives? && outcome.Gives?;
    match body
    case ProviderUnavailable(kind) => outcome == Fails(kind) && last != Some(Fails(kind))
    case Available(s) => outcome.Gives? && last.None? && Sums(s, outcome.snapshot)
    case Recovered(s) => outcome.Gives? && last.Some? && last.value.Fails? && Sums(s, outcome.snapshot)
    case Heartbeat(s) => both && !Differ(last.value.snapshot, outcome.snapshot) && due && Sums(s, outcome.snapshot)
    case HeadChanged(a, b) => both && a == last.value.snapshot.head && b == outcome.snapshot.head && a != b
    case BranchChanged(a, b) => both && a == last.value.snapshot.branch && b == outcome.snapshot.branch && a != b
    case DetachedEntered => both && !last.value.snapshot.detached && outcome.snapshot.detached
    case DetachedCleared => both && last.value.snapshot.detached && !outcome.snapshot.detached
    case DirtyEntered(n) => both && !last.value.snapshot.dirty && outcome.snapshot.dirty && CountsTree(n, outcome.snapshot)
    case DirtyCleared(n) => both && last.value.snapshot.dirty && !outcome.snapshot.dirty && CountsTree(n, outcome.snapshot)
    case ConflictEntered(n) => both && last.value.snapshot.conflicts == 0 && n == outcome.snapshot.conflicts > 0
    case ConflictCleared(n) => both && last.value.snapshot.conflicts > 0 && n == outcome.snapshot.conflicts == 0
    case AheadChanged(a, b) => both && a == last.value.snapshot.ahead && b == outcome.snapshot.ahead && a != b
    case BehindChanged(a, b) => both && a == last.value.snapshot.behind && b == outcome.snapshot.behind && a != b
  }

  /** The order of the events of one poll. */
  function Rank(body: Body): nat {
    match body
    case HeadChanged(_, _) => 1
    case BranchChanged(_, _) => 2
    case DetachedEntered => 3
    case DetachedCleared => 3
    case DirtyEntered(_) => 4
    case DirtyCleared(_) => 4
    case ConflictEntered(_) => 5
    case ConflictCleared(_) => 5
    case AheadChanged(_, _) => 6
    case BehindChanged(_, _) => 7
    case _ => 0
  }

  predicate Ranked(bodies: seq<Body>) {
    forall i, j :: 0 <= i < j < |bodies| ==> Rank(bodies[i]) < Rank(bodies[j])
  }

  lemma TransitionsMean(p: GitSnapshot, c: GitSnapshot, body: Body)
    ensures body in Transitions(p, c) <==> Justified(Some(Gives(p)), Gives(c), false, body)
  {
    RefTransitionsMean(p, c, body);
    TreeTransitionsMean(p, c, body);
    hide RefTransitions, TreeTransitions;
    assert body in Transitions(p, c) <==> body in RefTransitions(p, c) || body in TreeTransitions(p, c);
  }

  lemma InOneIf(condition: bool, one: Body, body: Body)
    ensures body in OneIf(condition, one) <==> condition && body == one
  {
  }

  lemma RefTransitionsMean(p: GitSnapshot, c: GitSnapshot, body: Body)
    ensures body in RefTransitions(p, c) <==>
              (body.HeadChanged? || body.BranchChanged? || body.DetachedEntered? || body.DetachedCleared?)
              && Justified(Some(Gives(p)), Gives(c), false, body)
  {
    hide OneIf;
    InOneIf(p.head != c.head, HeadChanged(p.head, c.head), body);
    InOneIf(p.branch != c.branch, BranchChanged(p.branch, c.branch), body);
    InOneIf(p.detached != c.detached, if c.detached then DetachedEntered else DetachedCleared, body);
  }

  lemma TreeTransitionsMean(p: GitSnapshot, c: GitSnapshot, body: Body)
    ensures body in TreeTransitions(p, c) <==>
              (body.DirtyEntered? || body.DirtyCleared? || body.ConflictEntered? || body.ConflictCleared? || body.AheadChanged? || body.BehindChanged?)
              && Justified(Some(Gives(p)), Gives(c), false, body)
  {
    hide OneIf;
    InOneIf(p.dirty != c.dirty, if c.dirty then DirtyEntered(CountsOf(c)) else DirtyCleared(CountsOf(c)), body);
    InOneIf((p.conflicts == 0) != (c.conflicts == 0),
            if c.conflicts > 0 then ConflictEntered(c.conflicts) else ConflictCleared(c.conflicts), body);
    InOneIf(p.ahead != c.ahead, AheadChanged(p.ahead, c.ahead), body);
    InOneIf(p.behind != c.behind, BehindChanged(p.behind, c.behind), body);
  }

  /** Everything in the list ranks below `n`, in ascending order. */
  predicate RankedBelow(bodies: seq<Body>, n: nat) {
    Ranked(bodies) && forall i :: 0 <= i < |bodies| ==> Rank(bodies[i]) < n
  }

  lemma RankedThen(bodies: seq<Body>, condition: bool, body: Body) returns (longer: seq<Body>)
    requires RankedBelow(bodies, Rank(body))
    ensures longer == bodies + OneIf(condition, body) && RankedBelow(longer, Rank(body) + 1)
    ensures longer == [] <==> bodies == [] && !condition
  {
    longer := bodies + OneIf(condition, body);
  }

  lemma RefTransitionsAreRanked(p: GitSnapshot, c: GitSnapshot)
    ensures RankedBelow(RefTransitions(p, c), 4)
    ensures RefTransitions(p, c) == [] <==> p.head == c.head && p.branch == c.branch && p.detached == c.detached
  {
    hide OneIf, RankedBelow;
    NothingRanks();
    var t := RankedThen([], p.head != c.head, HeadChanged(p.head, c.head));
    assert t == OneIf(p.head != c.head, HeadChanged(p.head, c.head));
    t := RankedThen(t, p.branch != c.branch, BranchChanged(p.branch, c.branch));
    t := RankedThen(t, p.detached != c.detached, if c.detached then DetachedEntered else DetachedCleared);
  }

  lemma TreeTransitionsAreRanked(p: GitSnapshot, c: GitSnapshot)
    ensures RankedBelow(TreeTransitions(p, c), 8)
    ensures TreeTransitions(p, c) == [] <==>
              p.dirty == c.dirty && (p.conflicts == 0) == (c.conflicts == 0) && p.ahead == c.ahead && p.behind == c.behind
    ensures forall i :: 0 <= i < |TreeTransitions(p, c)| ==> Rank(TreeTransitions(p, c)[i]) >= 4
  {
    hide *;
    TreeTransitionsRankLow(p, c);
    TreeTransitionsRankHigh(p, c);
  }

  lemma TreeTransitionsRankHigh(p: GitSnapshot, c: GitSnapshot)
    ensures forall i :: 0 <= i < |TreeTransitions(p, c)| ==> Rank(TreeTransitions(p, c)[i]) >= 4
  {
    hide TreeTransitions, Justified;
    forall i | 0 <= i < |TreeTransitions(p, c)| ensures Rank(TreeTransitions(p, c)[i]) >= 4 {
      TreeTransitionsMean(p, c, TreeTransitions(p, c)[i]);
    }
  }

  lemma TreeTransitionsRankLow(p: GitSnapshot, c: GitSnapshot)
    ensures RankedBelow(TreeTransitions(p, c), 8)
    ensures TreeTransitions(p, c) == [] <==>
              p.dirty == c.dirty && (p.conflicts == 0) == (c.conflicts == 0) && p.ahead == c.ahead && p.behind == c.behind
  {
    var dirty := if c.dirty then DirtyEntered(CountsOf(c)) else DirtyCleared(CountsOf(c));
    var conflict := if c.conflicts > 0 then ConflictEntered(c.conflicts) else ConflictCleared(c.conflicts);
    var entered := (p.conflicts == 0) != (c.conflicts == 0);
    assert Rank(dirty) == 4 && Rank(conflict) == 5 && Rank(AheadChanged(p.ahead, c.ahead)) == 6 && Rank(BehindChanged(p.behind, c.behind)) == 7;
    assert TreeTransitions(p, c)
        == OneIf(p.dirty != c.dirty, dirty) + OneIf(entered, conflict) + OneIf(p.ahead != c.ahead, AheadChanged(p.ahead, c.ahead))
           + OneIf(p.behind != c.behind, BehindChanged(p.behind, c.behind));
    hide *;
    FourRanked(p.dirty != c.dirty, dirty, entered, conflict, p.ahead != c.ahead, AheadChanged(p.ahead, c.ahead),
               p.behind != c.behind, BehindChanged(p.behind, c.behind));
  }

  lemma FourRanked(w: bool, a: Body, x: bool, b: Body, y: bool, c: Body, z: bool, d: Body)
    requires Rank(a) == 4 && Rank(b) == 5 && Rank(c) == 6 && Rank(d) == 7
    ensures var t := OneIf(w, a) + OneIf(x, b) + OneIf(y, c) + OneIf(z, d); RankedBelow(t, 8) && (t == [] <==> !w && !x && !y && !z)
  {
    hide *;
    NothingRanks();
    var t := RankedThen([], w, a);
    assert [] + OneIf(w, a) == OneIf(w, a);
    t := RankedThen(t, x, b);
    t := RankedThen(t, y, c);
    t := RankedThen(t, z, d);
  }

  lemma RankedConcat(a: seq<Body>, b: seq<Body>)
    requires RankedBelow(a, 4) && RankedBelow(b, 8) && forall i :: 0 <= i < |b| ==> Rank(b[i]) >= 4
    ensures Ranked(a + b)
  {
  }

  lemma TransitionsAreRanked(p: GitSnapshot, c: GitSnapshot)
    ensures Ranked(Transitions(p, c))
    ensures Transitions(p, c) == [] <==> !Differ(p, c)
  {
    hide RefTransitions, TreeTransitions, RankedBelow, Ranked;
    RefTransitionsAreRanked(p, c);
    TreeTransitionsAreRanked(p, c);
    RankedConcat(RefTransitions(p, c), TreeTransitions(p, c));
  }

  lemma NothingRanks()
    ensures forall n :: RankedBelow([], n)
  {
  }

  /**
   A poll says exactly what the outcome before and the outcome now justify, each thing once and in this
   order, with the values of these two outcomes; a heartbeat says that nothing else was to be said for so long.
   */
  lemma PollSaysWhatIsJustified(config: Config, previous: Option<Stored>, now: int, outcome: Outcome, body: Body)
    ensures var bodies := Bodies(Poll(config, previous, now, outcome).events);
            var last := if previous.Some? then Some(previous.value.last) else None;
            var due := previous.Some? && now - previous.value.heartbeatAt >= config.heartbeatSeconds;
            && (body in bodies <==> Justified(last, outcome, due, body))
            && Ranked(bodies)
  {
    hide Transitions, Poll, Ranked;
    PollSays(config, previous, now, outcome);
    RankedAlone();
    if previous.Some? && previous.value.last.Gives? && outcome.Gives? {
      TransitionsMean(previous.value.last.snapshot, outcome.snapshot, body);
      NotDue(Some(previous.value.last), outcome, body);
      TransitionsAreRanked(previous.value.last.snapshot, outcome.snapshot);
    }
  }

  lemma RankedAlone()
    ensures Ranked([]) && forall b: Body :: Ranked([b])
  {
  }

  lemma NotDue(last: Option<Outcome>, outcome: Outcome, body: Body)
    ensures !body.Heartbeat? ==> forall due :: Justified(last, outcome, due, body) <==> Justified(last, outcome, false, body)
    ensures body.Heartbeat? ==> !Justified(last, outcome, false, body)
  {
  }

  /** The incident candidates are the entered conflicts, under the head they were met at. */
  lemma CandidatesAreConflicts(config: Config, previous: Option<Stored>, now: int, outcome: Outcome, x: (Fingerprint, Event<Body>))
    ensures var o := Poll(config, previous, now, outcome);
            x in o.incidents <==>
              outcome.Gives? && x.1 in o.events && x.1.body.ConflictEntered? && x.0 == Fingerprint(config.projectId, config.sourceId, outcome.snapshot.head)
  {
    hide Said;
    if outcome.Gives? { ConflictsIn(config, outcome.snapshot.head, Poll(config, previous, now, outcome).events, x); }
  }

  lemma {:induction false} ConflictsIn(config: Config, head: Option<string>, events: seq<Event<Body>>, x: (Fingerprint, Event<Body>))
    ensures x in ConflictIncidents(config, head, events) <==>
              x.1 in events && x.1.body.ConflictEntered? && x.0 == Fingerprint(config.projectId, config.sourceId, head)
  {
    if events != [] {
      var front := events[..|events| - 1];
      ConflictsIn(config, head, front, x);
      assert events == front + [events[|events| - 1]];
    }
  }

  /** A poll remembers its outcome, and counts as a sign of life if it is the first, a recovery or a heartbeat. */
  lemma PollRemembers(config: Config, previous: Option<Stored>, now: int, outcome: Outcome)
    ensures var o := Poll(config, previous, now, outcome);
            && o.stored.last == outcome
            && o.stored.heartbeatAt == if previous.None? || (exists b :: b in Bodies(o.events) && (b.Recovered? || b.Heartbeat?)) then now
                                       else previous.value.heartbeatAt
  {
    PollSays(config, previous, now, outcome);
    StoresOutcome(config, previous, now, outcome);
    var said := Said(config, previous, now, outcome);
    if previous.Some? && previous.value.last.Gives? && outcome.Gives? {
      TransitionsSayNoLife(previous.value.last.snapshot, outcome.snapshot);
    }
    hide Transitions, Poll;
    if previous.Some? {
      assert Beats(config, previous, now, outcome) ==> said[0].Heartbeat?;
      assert outcome.Gives? && previous.value.last.Fails? ==> said[0].Recovered?;
    }
  }

  lemma TransitionsSayNoLife(p: GitSnapshot, c: GitSnapshot)
    ensures forall b :: b in Transitions(p, c) ==> !b.Recovered? && !b.Heartbeat?
  {
    forall b | b in Transitions(p, c) ensures !b.Recovered? && !b.Heartbeat? {
      TransitionsMean(p, c, b);
    }
  }

  /** Over every run of a new source, what is before is the outcome of the poll before. */
  lemma {:induction false} RunRemembers(config: Config, inputs: seq<Input>)
    ensures var end := Run(config, None, inputs);
            if inputs == [] then end.stored == None
            else end.stored.Some? && end.stored.value.last == inputs[|inputs| - 1].outcome
  {
    if inputs != [] { RunRemembersFrom(config, None, inputs); }
  }

  lemma {:induction false} RunRemembersFrom(config: Config, previous: Option<Stored>, inputs: seq<Input>)
    requires inputs != []
    ensures var end := Run(config, previous, inputs);
            end.stored.Some? && end.stored.value.last == inputs[|inputs| - 1].outcome
    decreases |inputs|
  {
    var first := Poll(config, previous, inputs[0].now, inputs[0].outcome);
    StoresOutcome(config, previous, inputs[0].now, inputs[0].outcome);
    hide Poll;
    if |inputs| == 1 {
      assert inputs[1..] == [];
    } else {
      RunRemembersFrom(config, Some(first.stored), inputs[1..]);
    }
  }

  // ---- the event log is replayable ----

  /** What a reader of the log knows: nothing while the provider is unavailable, else the last summary with every change since. */
  function Apply(known: Option<Summary>, body: Body): Option<Summary> {
    match body
    case ProviderUnavailable(_) => None
    case Available(s) => Some(s)
    case Recovered(s) => Some(s)
    case Heartbeat(s) => Some(s)
    case _ => if known.None? then None else Some(Changed(known.value, body))
  }

  function Changed(known: Summary, body: Body): Summary {
    match body
    case HeadChanged(_, current) => known.(head := current)
    case BranchChanged(_, current) => known.(branch := current)
    case DetachedEntered => known.(detached := true)
    case DetachedCleared => known.(detached := false)
    case DirtyEntered(_) => known.(dirty := true)
    case DirtyCleared(_) => known.(dirty := false)
    case AheadChanged(_, to) => known.(ahead := to)
    case BehindChanged(_, to) => known.(behind := to)
    case _ => known
  }

  function Replay(known: Option<Summary>, bodies: seq<Body>): Option<Summary>
    decreases |bodies|
  {
    if bodies == [] then known else Replay(Apply(known, bodies[0]), bodies[1..])
  }

  lemma {:induction false} ReplayConcat(known: Option<Summary>, a: seq<Body>, b: seq<Body>)
    ensures Replay(known, a + b) == Replay(Replay(known, a), b)
    decreases |a|
  {
    if a == [] {
      assert a + b == b;
    } else {
      ReplayConcat(Apply(known, a[0]), a[1..], b);
      assert (a + b)[1..] == a[1..] + b;
    }
  }

  lemma ReplayOneIf(known: Option<Summary>, condition: bool, body: Body)
    ensures Replay(known, OneIf(condition, body)) == if condition then Apply(known, body) else known
  {
    if condition { assert OneIf(condition, body)[1..] == []; }
  }

  /** What the stored outcome lets the reader know. */
  function Known(last: Outcome): Option<Summary> {
    if last.Gives? then Some(SummaryOf(last.snapshot)) else None
  }

  lemma TransitionsReplay(p: GitSnapshot, c: GitSnapshot)
    ensures Replay(Some(SummaryOf(p)), Transitions(p, c)) == Some(SummaryOf(c))
  {
    var middle := SummaryOf(p).(head := c.head, branch := c.branch, detached := c.detached);
    RefTransitionsReplay(p, c);
    TreeTransitionsReplay(p, c, middle);
    hide Replay, RefTransitions, TreeTransitions;
    ReplayConcat(Some(SummaryOf(p)), RefTransitions(p, c), TreeTransitions(p, c));
  }

  lemma RefTransitionsReplay(p: GitSnapshot, c: GitSnapshot)
    ensures Replay(Some(SummaryOf(p)), RefTransitions(p, c))
         == Some(SummaryOf(p).(head := c.head, branch := c.branch, detached := c.detached))
  {
    hide Replay, OneIf;
    var s := SummaryOf(p);
    ReplayOneIf(Some(s), p.head != c.head, HeadChanged(p.head, c.head));
    var t := OneIf(p.head != c.head, HeadChanged(p.head, c.head));
    var s1 := s.(head := c.head);
    t := ReplayThen(Some(s), t, Some(s1), p.branch != c.branch, BranchChanged(p.branch, c.branch));
    var s2 := s1.(branch := c.branch);
    t := ReplayThen(Some(s), t, Some(s2), p.detached != c.detached, if c.detached then DetachedEntered else DetachedCleared);
  }

  lemma TreeTransitionsReplay(p: GitSnapshot, c: GitSnapshot, s: Summary)
    requires s.dirty == p.dirty && s.ahead == p.ahead && s.behind == p.behind
    ensures Replay(Some(s), TreeTransitions(p, c)) == Some(s.(dirty := c.dirty, ahead := c.ahead, behind := c.behind))
  {
    hide Replay, OneIf;
    ReplayOneIf(Some(s), p.dirty != c.dirty, if c.dirty then DirtyEntered(CountsOf(c)) else DirtyCleared(CountsOf(c)));
    var t := OneIf(p.dirty != c.dirty, if c.dirty then DirtyEntered(CountsOf(c)) else DirtyCleared(CountsOf(c)));
    var s4 := s.(dirty := c.dirty);
    t := ReplayThen(Some(s), t, Some(s4), (p.conflicts == 0) != (c.conflicts == 0),
                    if c.conflicts > 0 then ConflictEntered(c.conflicts) else ConflictCleared(c.conflicts));
    t := ReplayThen(Some(s), t, Some(s4), p.ahead != c.ahead, AheadChanged(p.ahead, c.ahead));
    var s5 := s4.(ahead := c.ahead);
    t := ReplayThen(Some(s), t, Some(s5), p.behind != c.behind, BehindChanged(p.behind, c.behind));
  }

  lemma ReplayThen(known: Option<Summary>, t: seq<Body>, middle: Option<Summary>, condition: bool, body: Body) returns (longer: seq<Body>)
    requires Replay(known, t) == middle
    ensures longer == t + OneIf(condition, body)
    ensures Replay(known, longer) == if condition then Apply(middle, body) else middle
  {
    longer := t + OneIf(condition, body);
    ReplayConcat(known, t, OneIf(condition, body));
    ReplayOneIf(middle, condition, body);
  }

  lemma PollReplays(config: Config, previous: Option<Stored>, now: int, outcome: Outcome)
    ensures var known := if previous.Some? then Known(previous.value.last) else None;
            Replay(known, Said(config, previous, now, outcome)) == Known(outcome)
  {
    hide Transitions;
    if previous.Some? && previous.value.last.Gives? && outcome.Gives? {
      TransitionsReplay(previous.value.last.snapshot, outcome.snapshot);
    }
  }

  /**
   Over every run, outages included, the events alone tell the reader whether the repository is
   available and, if so, its head, branch, detached and dirty flags and ahead and behind counts.
   */
  lemma {:induction false} LogIsReplayable(config: Config, previous: Option<Stored>, inputs: seq<Input>)
    requires inputs != []
    ensures var known := if previous.Some? then Known(previous.value.last) else None;
            var end := Run(config, previous, inputs);
            && end.stored.Some? && end.stored.value.last == inputs[|inputs| - 1].outcome
            && Replay(known, end.bodies) == Known(end.stored.value.last)
    decreases |inputs|
  {
    hide Poll, Replay, Said, Known;
    var first := Poll(config, previous, inputs[0].now, inputs[0].outcome);
    var known := if previous.Some? then Known(previous.value.last) else None;
    PollSays(config, previous, inputs[0].now, inputs[0].outcome);
    PollReplays(config, previous, inputs[0].now, inputs[0].outcome);
    StoresOutcome(config, previous, inputs[0].now, inputs[0].outcome);
    var rest := Run(config, Some(first.stored), inputs[1..]);
    ReplayConcat(known, Bodies(first.events), rest.bodies);
    if |inputs| == 1 {
      assert rest.bodies == [];
      NothingToReplay(Known(inputs[0].outcome));
    } else {
      LogIsReplayable(config, Some(first.stored), inputs[1..]);
    }
  }

  lemma NothingToReplay(known: Option<Summary>)
    ensures Replay(known, []) == known
  {
  }

  lemma StoresOutcome(config: Config, previous: Option<Stored>, now: int, outcome: Outcome)
    ensures var s := Poll(config, previous, now, outcome).stored;
            s.last == outcome && s.heartbeatAt == HeartbeatAfter(config, previous, now, outcome)
  {
  }

  // ---- conflicts alternate ----

  /** Follows the conflict events from `flag`; none as soon as one is entered twice or cleared twice in a row. */
  function Track(flag: Option<bool>, bodies: seq<Body>): Option<bool>
    decreases |bodies|
  {
    if flag.None? || bodies == [] then flag else Track(Turn(flag.value, bodies[0]), bodies[1..])
  }

  function Turn(flag: bool, body: Body): Option<bool> {
    match body
    case ConflictEntered(_) => if flag then None else Some(true)
    case ConflictCleared(_) => if flag then Some(false) else None
    case _ => Some(flag)
  }

  lemma {:induction false} TrackConcat(flag: Option<bool>, a: seq<Body>, b: seq<Body>)
    ensures Track(flag, a + b) == Track(Track(flag, a), b)
    decreases |a|
  {
    if flag.None? {
    } else if a == [] {
      assert a + b == b;
    } else {
      assert (a + b)[1..] == a[1..] + b;
      TrackConcat(Turn(flag.value, a[0]), a[1..], b);
    }
  }

  predicate NoConflictEvent(bodies: seq<Body>) {
    forall i :: 0 <= i < |bodies| ==> !bodies[i].ConflictEntered? && !bodies[i].ConflictCleared?
  }

  lemma {:induction false} TrackIgnores(flag: bool, bodies: seq<Body>)
    requires NoConflictEvent(bodies)
    ensures Track(Some(flag), bodies) == Some(flag)
  {
    if bodies != [] { TrackIgnores(flag, bodies[1..]); }
  }

  lemma TransitionsTrack(p: GitSnapshot, c: GitSnapshot)
    ensures Track(Some(p.conflicts > 0), Transitions(p, c)) == Some(c.conflicts > 0)
  {
    var was, will := p.conflicts > 0, c.conflicts > 0;
    RefTransitionsTrack(p, c, was);
    TreeTransitionsTrack(p, c);
    hide Track, RefTransitions, TreeTransitions;
    TrackConcat(Some(was), RefTransitions(p, c), TreeTransitions(p, c));
  }

  lemma RefTransitionsTrack(p: GitSnapshot, c: GitSnapshot, flag: bool)
    ensures Track(Some(flag), RefTransitions(p, c)) == Some(flag)
  {
    hide Track, OneIf;
    TrackOneIf(flag, p.head != c.head, HeadChanged(p.head, c.head));
    var t := OneIf(p.head != c.head, HeadChanged(p.head, c.head));
    t := TrackThen(flag, t, flag, p.branch != c.branch, BranchChanged(p.branch, c.branch));
    t := TrackThen(flag, t, flag, p.detached != c.detached, if c.detached then DetachedEntered else DetachedCleared);
  }

  lemma TreeTransitionsTrack(p: GitSnapshot, c: GitSnapshot)
    ensures Track(Some(p.conflicts > 0), TreeTransitions(p, c)) == Some(c.conflicts > 0)
  {
    hide Track, OneIf;
    var was, will := p.conflicts > 0, c.conflicts > 0;
    var dirty := if c.dirty then DirtyEntered(CountsOf(c)) else DirtyCleared(CountsOf(c));
    TrackOneIf(was, p.dirty != c.dirty, dirty);
    var t := OneIf(p.dirty != c.dirty, dirty);
    t := TrackThen(was, t, was, (p.conflicts == 0) != (c.conflicts == 0),
                   if c.conflicts > 0 then ConflictEntered(c.conflicts) else ConflictCleared(c.conflicts));
    t := TrackThen(was, t, will, p.ahead != c.ahead, AheadChanged(p.ahead, c.ahead));
    t := TrackThen(was, t, will, p.behind != c.behind, BehindChanged(p.behind, c.behind));
  }

  lemma TrackOneIf(flag: bool, condition: bool, body: Body)
    ensures Track(Some(flag), OneIf(condition, body)) == if condition then Turn(flag, body) else Some(flag)
  {
    if condition { assert OneIf(condition, body)[1..] == []; }
  }

  lemma TrackThen(flag: bool, t: seq<Body>, middle: bool, condition: bool, body: Body) returns (longer: seq<Body>)
    requires Track(Some(flag), t) == Some(middle)
    ensures longer == t + OneIf(condition, body)
    ensures Track(Some(flag), longer) == if condition then Turn(middle, body) else Some(middle)
  {
    longer := t + OneIf(condition, body);
    TrackConcat(Some(flag), t, OneIf(condition, body));
    TrackOneIf(middle, condition, body);
  }

  predicate AllAvailable(inputs: seq<Input>) {
    forall i :: 0 <= i < |inputs| ==> inputs[i].outcome.Gives?
  }

  lemma PollTracks(config: Config, previous: Stored, now: int, outcome: Outcome)
    requires previous.last.Gives? && outcome.Gives?
    ensures Track(Some(previous.last.snapshot.conflicts > 0), Said(config, Some(previous), now, outcome))
         == Some(outcome.snapshot.conflicts > 0)
  {
    hide Transitions;
    TransitionsTrack(previous.last.snapshot, outcome.snapshot);
  }

  /** Within an available epoch entered and cleared strictly alternate, and the last one tells whether there are conflicts. */
  lemma {:induction false} ConflictsAlternate(config: Config, previous: Stored, inputs: seq<Input>)
    requires previous.last.Gives? && AllAvailable(inputs)
    ensures var end := Run(config, Some(previous), inputs);
            && end.stored.Some? && end.stored.value.last.Gives?
            && Track(Some(previous.last.snapshot.conflicts > 0), end.bodies) == Some(end.stored.value.last.snapshot.conflicts > 0)
    decreases |inputs|
  {
    if inputs != [] {
      var now, outcome := inputs[0].now, inputs[0].outcome;
      PollSays(config, Some(previous), now, outcome);
      PollTracks(config, previous, now, outcome);
      StoresOutcome(config, Some(previous), now, outcome);
      hide Poll, Said, Track;
      var first := Poll(config, Some(previous), now, outcome);
      ConflictsAlternate(config, first.stored, inputs[1..]);
      TrackConcat(Some(previous.last.snapshot.conflicts > 0), Bodies(first.events), Run(config, Some(first.stored), inputs[1..]).bodies);
    }
  }

  predicate AllFail(inputs: seq<Input>) {
    forall i :: 0 <= i < |inputs| ==> inputs[i].outcome.Fails?
  }

  lemma {:induction false} RunConcat(config: Config, previous: Option<Stored>, a: seq<Input>, b: seq<Input>)
    ensures var first := Run(config, previous, a);
            var rest := Run(config, first.stored, b);
            Run(config, previous, a + b) == Trace(first.bodies + rest.bodies, rest.stored)
    decreases |a|
  {
    if a == [] {
      assert a + b == b;
      assert [] + Run(config, previous, b).bodies == Run(config, previous, b).bodies;
    } else {
      assert (a + b)[0] == a[0] && (a + b)[1..] == a[1..] + b;
      var next := Some(Poll(config, previous, a[0].now, a[0].outcome).stored);
      RunConcat(config, next, a[1..], b);
      hide Poll;
      var first := Run(config, next, a[1..]);
      var said := Bodies(Poll(config, previous, a[0].now, a[0].outcome).events);
      assert (said + first.bodies) + Run(config, first.stored, b).bodies == said + (first.bodies + Run(config, first.stored, b).bodies);
    }
  }

  /** Failing polls say nothing about conflicts, and leave the source unavailable. */
  lemma {:induction false} OutageTracks(config: Config, previous: Stored, downs: seq<Input>, flag: bool)
    requires AllFail(downs)
    ensures var end := Run(config, Some(previous), downs);
            && Track(Some(flag), end.bodies) == Some(flag)
            && end.stored.Some? && (downs != [] ==> end.stored.value.last.Fails?)
    decreases |downs|
  {
    if downs != [] {
      var now, outcome := downs[0].now, downs[0].outcome;
      PollSays(config, Some(previous), now, outcome);
      StoresOutcome(config, Some(previous), now, outcome);
      TrackIgnores(flag, Said(config, Some(previous), now, outcome));
      hide Poll, Said, Track;
      var first := Poll(config, Some(previous), now, outcome);
      OutageTracks(config, first.stored, downs[1..], flag);
      TrackConcat(Some(flag), Bodies(first.events), Run(config, Some(first.stored), downs[1..]).bodies);
      if |downs| == 1 { assert downs[1..] == []; }
    }
  }

  /**
   An outage, however long and of whatever kinds, says nothing about conflicts: when the repository is
   back the events tell the truth exactly when the snapshots before and after agree on them.
   */
  lemma OutageHidesConflicts(config: Config, previous: Stored, downs: seq<Input>, up: Input)
    requires previous.last.Gives? && downs != [] && AllFail(downs) && up.outcome.Gives?
    ensures var before := previous.last.snapshot.conflicts > 0;
            var after := up.outcome.snapshot.conflicts > 0;
            var tracked := Track(Some(before), Run(config, Some(previous), downs + [up]).bodies);
            tracked.Some? && (tracked == Some(after) <==> before == after)
  {
    var before := previous.last.snapshot.conflicts > 0;
    OutageTracks(config, previous, downs, before);
    RunConcat(config, Some(previous), downs, [up]);
    var end := Run(config, Some(previous), downs);
    PollSays(config, end.stored, up.now, up.outcome);
    RecoveryTracks(config, end.stored.value, up, before);
    TrackConcat(Some(before), end.bodies, Run(config, end.stored, [up]).bodies);
  }

  lemma RecoveryTracks(config: Config, previous: Stored, up: Input, flag: bool)
    requires previous.last.Fails? && up.outcome.Gives?
    ensures Track(Some(flag), Run(config, Some(previous), [up]).bodies) == Some(flag)
  {
    PollSays(config, Some(previous), up.now, up.outcome);
    var bodies := Run(config, Some(previous), [up]).bodies;
    var next := Some(Poll(config, Some(previous), up.now, up.outcome).stored);
    assert [up][1..] == [] && Run(config, next, []).bodies == [];
    assert bodies == Said(config, Some(previous), up.now, up.outcome) + [];
    assert bodies == [Recovered(SummaryOf(up.outcome.snapshot))];
    TrackIgnores(flag, bodies);
  }

  // ---- how many events ----

  function Nows(inputs: seq<Input>): (nows: seq<int>)
    ensures |nows| == |inputs| && forall i :: 0 <= i < |inputs| ==> nows[i] == inputs[i].now
  {
    seq(|inputs|, i requires 0 <= i < |inputs| => inputs[i].now)
  }

  /** How often the outcome differs from the one before. */
  function OutcomeChanges(last: Outcome, inputs: seq<Input>): nat
    decreases |inputs|
  {
    if inputs == [] then 0
    else (if inputs[0].outcome != last then 1 else 0) + OutcomeChanges(inputs[0].outcome, inputs[1..])
  }

  /** When heartbeats are emitted. */
  function Heartbeats(config: Config, previous: Option<Stored>, inputs: seq<Input>): seq<int>
    decreases |inputs|
  {
    if inputs == [] then []
    else
      (if Beats(config, previous, inputs[0].now, inputs[0].outcome) then [inputs[0].now] else [])
      + Heartbeats(config, Some(Poll(config, previous, inputs[0].now, inputs[0].outcome).stored), inputs[1..])
  }

  /** One poll emits a heartbeat, or at most seven events for a changed outcome, or nothing. */
  lemma PollVolume(config: Config, previous: Stored, now: int, outcome: Outcome)
    ensures |Said(config, Some(previous), now, outcome)|
         <= (if outcome != previous.last then 7 else 0) + (if Beats(config, Some(previous), now, outcome) then 1 else 0)
    ensures HeartbeatAfter(config, Some(previous), now, outcome) in {now, previous.heartbeatAt}
    ensures Beats(config, Some(previous), now, outcome) ==>
              now >= previous.heartbeatAt + config.heartbeatSeconds && HeartbeatAfter(config, Some(previous), now, outcome) == now
  {
  }

  /** A run after a first poll emits at most 7 events for each change of outcome, plus its heartbeats. */
  lemma {:induction false} ChangesBoundVolume(config: Config, previous: Stored, inputs: seq<Input>)
    ensures |Run(config, Some(previous), inputs).bodies|
         <= 7 * OutcomeChanges(previous.last, inputs) + |Heartbeats(config, Some(previous), inputs)|
    decreases |inputs|
  {
    if inputs != [] {
      var now, outcome := inputs[0].now, inputs[0].outcome;
      PollSays(config, Some(previous), now, outcome);
      PollVolume(config, previous, now, outcome);
      StoresOutcome(config, Some(previous), now, outcome);
      hide Poll, Said, Beats, HeartbeatAfter;
      ChangesBoundVolume(config, Poll(config, Some(previous), now, outcome).stored, inputs[1..]);
    }
  }

  /** With a clock that does not run backwards heartbeats are at least heartbeat_seconds apart, across outages too. */
  lemma {:induction false} HeartbeatsAreSpaced(config: Config, previous: Stored, from: int, inputs: seq<Input>)
    requires previous.heartbeatAt <= from && SpacedBy(0, from, Nows(inputs))
    ensures var beats := Heartbeats(config, Some(previous), inputs);
            && SpacedBy(config.heartbeatSeconds, previous.heartbeatAt, beats)
            && Last(previous.heartbeatAt, beats) <= Last(from, Nows(inputs))
    decreases |inputs|
  {
    if inputs != [] {
      var now, outcome := inputs[0].now, inputs[0].outcome;
      PollVolume(config, previous, now, outcome);
      StoresOutcome(config, Some(previous), now, outcome);
      hide Poll, Said, Beats, HeartbeatAfter;
      var next := Poll(config, Some(previous), now, outcome).stored;
      assert Nows(inputs)[1..] == Nows(inputs[1..]);
      HeartbeatsAreSpaced(config, next, now, inputs[1..]);
      var later := Heartbeats(config, Some(next), inputs[1..]);
      LastOfRest(from, Nows(inputs));
      if Beats(config, Some(previous), now, outcome) {
        var beats := [now] + later;
        assert beats[1..] == later;
        LastOfRest(previous.heartbeatAt, beats);
      } else {
        assert [] + later == later;
        SpacedLater(config.heartbeatSeconds, previous.heartbeatAt, next.heartbeatAt, later);
      }
    }
  }

  /** From the start: at most 7 events for each change of outcome, the first poll counted, plus elapsed time over heartbeat_seconds. */
  lemma {:induction false} VolumeFromStart(config: Config, inputs: seq<Input>)
    requires inputs != [] && SpacedBy(0, inputs[0].now, Nows(inputs))
    ensures var volume := |Run(config, None, inputs).bodies|;
            var changes := 1 + OutcomeChanges(inputs[0].outcome, inputs[1..]);
            (volume - 7 * changes) * config.heartbeatSeconds <= inputs[|inputs| - 1].now - inputs[0].now
  {
    hide *;
    var first := RunFromStart(config, inputs);
    var rest := inputs[1..];
    NowsRest(inputs);
    var volume := |Run(config, None, inputs).bodies|;
    var changes := 1 + OutcomeChanges(inputs[0].outcome, inputs[1..]);
    VolumeAfterFirst(config, first, inputs[0].now, rest, volume, changes);
  }

  lemma NowsRest(inputs: seq<Input>)
    requires inputs != [] && SpacedBy(0, inputs[0].now, Nows(inputs))
    ensures SpacedBy(0, inputs[0].now, Nows(inputs[1..]))
    ensures Last(inputs[0].now, Nows(inputs[1..])) == inputs[|inputs| - 1].now
  {
    assert Nows(inputs)[1..] == Nows(inputs[1..]);
    LastOfRest(inputs[0].now, Nows(inputs));
  }

  lemma RunFromStart(config: Config, inputs: seq<Input>) returns (first: Stored)
    requires inputs != []
    ensures first.heartbeatAt == inputs[0].now && first.last == inputs[0].outcome
    ensures |Run(config, None, inputs).bodies| == 1 + |Run(config, Some(first), inputs[1..]).bodies|
  {
    var now, outcome := inputs[0].now, inputs[0].outcome;
    PollSays(config, None, now, outcome);
    StoresOutcome(config, None, now, outcome);
    FirstPoll(config, now, outcome);
    first := Poll(config, None, now, outcome).stored;
    hide Poll, Said, HeartbeatAfter;
  }

  lemma VolumeAfterFirst(config: Config, first: Stored, now: int, rest: seq<Input>, volume: nat, changes: nat)
    requires first.heartbeatAt == now && SpacedBy(0, now, Nows(rest))
    requires volume == 1 + |Run(config, Some(first), rest).bodies| && changes == 1 + OutcomeChanges(first.last, rest)
    ensures (volume - 7 * changes) * config.heartbeatSeconds <= Last(now, Nows(rest)) - now
  {
    hide *;
    ChangesBoundVolume(config, first, rest);
    HeartbeatsAreSpaced(config, first, now, rest);
    var beats := Heartbeats(config, Some(first), rest);
    SpacedAtMost(config.heartbeatSeconds, now, beats, volume - 7 * changes);
  }

  lemma FirstPoll(config: Config, now: int, outcome: Outcome)
    ensures |Said(config, None, now, outcome)| == 1 && HeartbeatAfter(config, None, now, outcome) == now
  {
  }
}
