/**
 The per-project circuit: the stored row is what a breaker reading the project's history
 would hold, and that history bounds how much is admitted.
 */
module RunnerCircuit {
  import opened Common
  import opened TaskTables
  import opened RunnerProtocol
  import opened RunnerOwnership

  // ---- the breaker, read off a history ----

  /** Non-success records since the last success record. */
  function FailuresSince(log: seq<CircuitEntry>): nat {
    if log == [] then 0
    else match log[|log| - 1]
      case Recorded(_, _, success, _) => if success then 0 else FailuresSince(log[..|log| - 1]) + 1
      case _ => FailuresSince(log[..|log| - 1])
  }

  /** When the last run was recorded. */
  function LastRecordAt(log: seq<CircuitEntry>): Option<int> {
    if log == [] then None
    else match log[|log| - 1]
      case Recorded(_, _, _, at) => Some(at)
      case _ => LastRecordAt(log[..|log| - 1])
  }

  /** A probe was admitted and nothing has been recorded since. */
  predicate ProbeOut(log: seq<CircuitEntry>) {
    if log == [] then false
    else match log[|log| - 1]
      case Recorded(_, _, _, _) => false
      case Admitted(_, _, probe) => probe || ProbeOut(log[..|log| - 1])
      case Started(_) => ProbeOut(log[..|log| - 1])
  }

  datatype Policy = Policy(threshold: nat, cooldown: nat)

  predicate Open(log: seq<CircuitEntry>, policy: Policy) {
    FailuresSince(log) >= policy.threshold
  }

  function RowAt(t: Tables, p: ProjectId): Option<CircuitRow> {
    if p in t.circuits then Some(t.circuits[p]) else None
  }

  /** The row a breaker with this history would have stored. */
  function BreakerRow(log: seq<CircuitEntry>, policy: Policy): Option<CircuitRow> {
    if FailuresSince(log) == 0 then None
    else Some(CircuitRow(FailuresSince(log), if Open(log, policy) then LastRecordAt(log) else None, ProbeOut(log)))
  }

  /** The admission rule: anything while closed; while open one probe at a time, after the cooldown. */
  predicate Admissible(log: seq<CircuitEntry>, policy: Policy, at: int, probe: bool) {
    if Open(log, policy) then
      probe && !ProbeOut(log) && LastRecordAt(log).Some? && at - LastRecordAt(log).value >= policy.cooldown
    else !probe
  }

  ghost predicate AdmissionLaw(log: seq<CircuitEntry>, policy: Policy) {
    forall i :: 0 <= i < |log| && log[i].Admitted? ==> Admissible(log[..i], policy, log[i].at, log[i].probe)
  }

  lemma FailuresHaveARecord(log: seq<CircuitEntry>)
    requires FailuresSince(log) > 0
    ensures LastRecordAt(log).Some?
  {
  }

  // ---- the stored row refines it ----

  ghost predicate UsesPolicy(w: World, p: ProjectId, policy: Policy) {
    forall c :: c in w.callers && w.callers[c].call.key.project == p ==>
      w.callers[c].call.threshold == policy.threshold && w.callers[c].call.cooldown == policy.cooldown
  }

  ghost predicate CircuitOk(w: World, p: ProjectId, policy: Policy) {
    && policy.threshold >= 1
    && UsesPolicy(w, p, policy)
    && RowAt(w.tables, p) == BreakerRow(Log(w, p), policy)
    && (ProbeOut(Log(w, p)) ==> Open(Log(w, p), policy))
    && AdmissionLaw(Log(w, p), policy)
  }

  /** With one policy per project, the answer to a claim is the admission rule, and it never raises. */
  lemma ClaimFollowsHistory(w: World, p: ProjectId, policy: Policy, now: int)
    requires CircuitOk(w, p, policy)
    ensures var answer := ClaimAnswer(w.tables, p, policy.threshold, policy.cooldown, now);
            && !answer.Raised?
            && (answer.Granted? ==> Admissible(Log(w, p), policy, now, answer.probe))
            && (answer.Denied? <==> forall probe :: !Admissible(Log(w, p), policy, now, probe))
  {
    var log := Log(w, p);
    if FailuresSince(log) > 0 { FailuresHaveARecord(log); }
    assert Admissible(log, policy, now, true) || Admissible(log, policy, now, false)
      <==> (Open(log, policy) ==> !ProbeOut(log) && LastRecordAt(log).Some? && now - LastRecordAt(log).value >= policy.cooldown);
  }

  /** What one step of caller `c` does to the circuit of project `p`. */
  lemma AdvanceCircuitShape(w: World, c: CallerId, input: Input, p: ProjectId)
    requires c in w.callers
    ensures var w1 := AdvanceCaller(w, c, input);
            var call := w.callers[c].call;
            && w1.callers.Keys == w.callers.Keys
            && (forall o :: o in w.callers ==> w1.callers[o].call == w.callers[o].call)
            && if call.key.project != p then Log(w1, p) == Log(w, p) && RowAt(w1.tables, p) == RowAt(w.tables, p)
               else match w.callers[c].pc
               case Claiming =>
                 (match ClaimAnswer(w.tables, p, call.threshold, call.cooldown, input.now)
                  case Granted(probe) =>
                    && Log(w1, p) == Log(w, p) + [Admitted(c, input.now, probe)]
                    && RowAt(w1.tables, p) ==
                       (if probe && RowAt(w.tables, p).Some? then Some(RowAt(w.tables, p).value.(probe := true))
                        else RowAt(w.tables, p))
                  case _ => Log(w1, p) == Log(w, p) && RowAt(w1.tables, p) == RowAt(w.tables, p))
               case Cleared(_, _) => Log(w1, p) == Log(w, p) + [Started(c)] && RowAt(w1.tables, p) == RowAt(w.tables, p)
               case Recording(run, result, _) =>
                 && Log(w1, p) == Log(w, p) + [Recorded(c, run, result.classification.Success?, input.now)]
                 && RowAt(w1.tables, p) ==
                    (if result.classification.Success? then None
                     else RowAt(RecordFailure(w.tables, p, call.threshold, input.now), p))
               case _ => Log(w1, p) == Log(w, p) && RowAt(w1.tables, p) == RowAt(w.tables, p)
  {
    match w.callers[c].pc
    case Claiming =>
    case Cleared(_, _) =>
    case Recording(_, _, _) =>
    case Appending(_, _, _) =>
    case Finishing(_, _, _) =>
    case _ =>
  }

  lemma OtherStepCircuitShape(w: World, a: Action, p: ProjectId)
    requires !a.Advance?
    ensures Log(Next(w, a), p) == Log(w, p) && RowAt(Next(w, a).tables, p) == RowAt(w.tables, p)
  {
    match a
    case AdvanceControl(k) =>
    case _ =>
  }

  /** A call that starts follows the policy of its project. */
  predicate Follows(a: Action, p: ProjectId, policy: Policy) {
    a.StartCall? && a.call.key.project == p ==> a.call.threshold == policy.threshold && a.call.cooldown == policy.cooldown
  }

  lemma LawExtends(log: seq<CircuitEntry>, policy: Policy, entry: CircuitEntry)
    requires AdmissionLaw(log, policy)
    requires entry.Admitted? ==> Admissible(log, policy, entry.at, entry.probe)
    ensures AdmissionLaw(log + [entry], policy)
  {
    var log1 := log + [entry];
    forall i | 0 <= i < |log1| && log1[i].Admitted?
      ensures Admissible(log1[..i], policy, log1[i].at, log1[i].probe)
    {
      assert log1[..i] == log[..i];
      if i == |log| { assert log[..i] == log; }
    }
  }

  lemma AdvanceKeepsCircuit(w: World, c: CallerId, input: Input, p: ProjectId, policy: Policy)
    requires CircuitOk(w, p, policy) && c in w.callers
    ensures CircuitOk(AdvanceCaller(w, c, input), p, policy)
  {
    AdvanceCircuitShape(w, c, input, p);
    ClaimFollowsHistory(w, p, policy, input.now);
    var log, log1 := Log(w, p), Log(AdvanceCaller(w, c, input), p);
    if log1 != log {
      assert log1[..|log1| - 1] == log;
      LawExtends(log, policy, log1[|log1| - 1]);
    }
  }

  lemma StepKeepsCircuit(w: World, a: Action, p: ProjectId, policy: Policy)
    requires CircuitOk(w, p, policy) && Follows(a, p, policy)
    ensures CircuitOk(Next(w, a), p, policy)
  {
    if a.Advance? {
      if a.caller in w.callers { AdvanceKeepsCircuit(w, a.caller, a.input, p, policy); }
    } else {
      OtherStepShape(w, a);
      OtherStepCircuitShape(w, a, p);
    }
  }

  lemma {:induction false} ExecKeepsCircuit(w: World, actions: seq<Action>, p: ProjectId, policy: Policy)
    requires CircuitOk(w, p, policy)
    requires forall a :: a in actions ==> Follows(a, p, policy)
    ensures CircuitOk(Exec(w, actions), p, policy)
    decreases |actions|
  {
    if actions != [] {
      StepKeepsCircuit(w, actions[0], p, policy);
      ExecKeepsCircuit(Next(w, actions[0]), actions[1..], p, policy);
    }
  }

  /**
   The circuit row refines an abstract breaker, in every interleaving whose calls share one
   policy per project: the stored counter, opening time and probe flag are those the history
   determines, and every admission the history holds obeyed the rule at its time.
   */
  lemma CircuitRefinesBreaker(actions: seq<Action>, p: ProjectId, policy: Policy)
    requires policy.threshold >= 1
    requires forall a :: a in actions ==> Follows(a, p, policy)
    ensures var w := Exec(INITIAL, actions);
            && RowAt(w.tables, p) == BreakerRow(Log(w, p), policy)
            && (ProbeOut(Log(w, p)) ==> Open(Log(w, p), policy))
            && AdmissionLaw(Log(w, p), policy)
  {
    ExecKeepsCircuit(INITIAL, actions, p, policy);
  }

  // ---- calls of one project with different thresholds ----

  function LastRecorder(log: seq<CircuitEntry>): Option<CallerId> {
    if log == [] then None
    else match log[|log| - 1]
      case Recorded(c, _, _, _) => Some(c)
      case _ => LastRecorder(log[..|log| - 1])
  }

  /** The threshold of the call that recorded last. */
  function RecorderThreshold(w: World, p: ProjectId): nat {
    match LastRecorder(Log(w, p))
    case Some(c) => if c in w.callers then w.callers[c].call.threshold else 0
    case None => 0
  }

  predicate RowFollows(w: World, p: ProjectId) {
    && RowAt(w.tables, p) == BreakerRow(Log(w, p), Policy(RecorderThreshold(w, p), 0))
    && (FailuresSince(Log(w, p)) == 0 ==> !ProbeOut(Log(w, p)))
    && (LastRecorder(Log(w, p)).Some? ==> LastRecorder(Log(w, p)).value in w.callers)
  }

  lemma AdvanceKeepsRow(w: World, c: CallerId, input: Input, p: ProjectId)
    requires RowFollows(w, p) && c in w.callers
    ensures RowFollows(AdvanceCaller(w, c, input), p)
  {
    AdvanceCircuitShape(w, c, input, p);
    var log, log1 := Log(w, p), Log(AdvanceCaller(w, c, input), p);
    if log1 != log { assert log1[..|log1| - 1] == log; }
  }

  lemma {:induction false} ExecKeepsRow(w: World, actions: seq<Action>, p: ProjectId)
    requires RowFollows(w, p)
    ensures RowFollows(Exec(w, actions), p)
    decreases |actions|
  {
    if actions != [] {
      var a := actions[0];
      if a.Advance? {
        if a.caller in w.callers { AdvanceKeepsRow(w, a.caller, a.input, p); }
      } else {
        OtherStepShape(w, a);
        OtherStepCircuitShape(w, a, p);
      }
      ExecKeepsRow(Next(w, a), actions[1..], p);
    }
  }

  /**
   Whatever thresholds and cooldowns the calls of a project have, in every interleaving the stored row is
   the breaker's under the threshold of the call that recorded last, and a claim reads a NULL opening
   time and raises exactly when its own threshold has been reached and that one has not.
   */
  lemma ClaimRaisesIff(actions: seq<Action>, p: ProjectId, threshold: nat, cooldown: nat, now: int)
    ensures var w := Exec(INITIAL, actions);
            var recorded := RecorderThreshold(w, p);
            && RowAt(w.tables, p) == BreakerRow(Log(w, p), Policy(recorded, cooldown))
            && (ClaimAnswer(w.tables, p, threshold, cooldown, now).Raised? <==>
                  FailuresSince(Log(w, p)) > 0 && threshold <= FailuresSince(Log(w, p)) < recorded)
  {
    ExecKeepsRow(INITIAL, actions, p);
    var log := Log(Exec(INITIAL, actions), p);
    if FailuresSince(log) > 0 { FailuresHaveARecord(log); }
  }

  // ---- a run in which a claim raises ----

  /** No call of the project has run yet, and the controller admits. */
  predicate Untouched(w: World, p: ProjectId, key: RequestKey, id: RunId) {
    && key !in w.tables.byKey && id !in w.tables.runs && Of(w.tables.attempts, id) == map[]
    && p !in w.tables.circuits && w.tables.controller.Active?
  }

  predicate At(w: World, c: CallerId, call: Call, pc: Pc) {
    c in w.callers && w.callers[c] == Caller(call, pc)
  }

  /** A new request of a project whose circuit is closed comes to its claim. */
  lemma ComesToClaim(w: World, c: CallerId, call: Call, input: Input, n: nat)
    requires At(w, c, call, Lookup) && call.key !in w.tables.byKey && w.tables.controller.Active? && n >= 2
    ensures At(Goto(w, c, Claiming), c, call, Claiming)
    ensures Exec(w, Steps(c, input, n)) == Exec(Goto(w, c, Claiming), Steps(c, input, n - 2))
  {
    ExecSteps(w, c, input, n);
    var w1 := AdvanceCaller(w, c, input);
    assert w1 == Goto(w, c, Gate);
    ExecSteps(w1, c, input, n - 1);
    assert AdvanceCaller(w1, c, input) == Goto(w, c, Claiming);
  }

  /** It is admitted and inserts its run. */
  lemma ComesToAttempt(w: World, c: CallerId, call: Call, input: Input, n: nat)
    requires At(w, c, call, Claiming) && Untouched(w, call.key.project, call.key, input.newId) && n >= 3
    ensures var t1 := InsertRun(w.tables, input.newId, call.key, input.now);
            exists w1: World :: At(w1, c, call, Attempting(input.newId, 1)) && w1.tables == t1 && w1.callers.Keys == w.callers.Keys
              && Exec(w, Steps(c, input, n)) == Exec(w1, Steps(c, input, n - 3))
  {
    ExecSteps(w, c, input, n);
    var w1 := AdvanceCaller(w, c, input);
    assert At(w1, c, call, Inserting) && w1.tables == w.tables;
    ExecSteps(w1, c, input, n - 1);
    var w2 := AdvanceCaller(w1, c, input);
    assert At(w2, c, call, Fetching) && w2.tables == InsertRun(w.tables, input.newId, call.key, input.now);
    ExecSteps(w2, c, input, n - 2);
    var w3 := AdvanceCaller(w2, c, input);
    assert At(w3, c, call, Attempting(input.newId, 1)) && w3.tables == w2.tables;
  }

  /** It executes. */
  lemma ComesToAppend(w: World, c: CallerId, call: Call, input: Input, r: RunId, n: nat)
    requires At(w, c, call, Attempting(r, 1)) && w.tables.controller.Active? && n >= 3
    ensures exists w1: World :: At(w1, c, call, Appending(r, 1, input.executed)) && w1.tables == w.tables
              && w1.callers.Keys == w.callers.Keys && Exec(w, Steps(c, input, n)) == Exec(w1, Steps(c, input, n - 3))
  {
    ExecSteps(w, c, input, n);
    var w1 := AdvanceCaller(w, c, input);
    assert At(w1, c, call, Cleared(r, 1)) && w1.tables == w.tables;
    ExecSteps(w1, c, input, n - 1);
    var w2 := AdvanceCaller(w1, c, input);
    assert At(w2, c, call, Executing(r, 1)) && w2.tables == w.tables;
    ExecSteps(w2, c, input, n - 2);
    var w3 := AdvanceCaller(w2, c, input);
    assert At(w3, c, call, Appending(r, 1, input.executed)) && w3.tables == w.tables;
  }

  /** Its only attempt fails, and it records the failure. */
  lemma RecordsFailure(w: World, c: CallerId, call: Call, input: Input, r: RunId)
    requires At(w, c, call, Appending(r, 1, input.executed)) && call.maxAttempts == 1 && input.executed.classification.Failed?
    requires r in w.tables.runs && Of(w.tables.attempts, r) == map[]
    ensures var w1 := Exec(w, Steps(c, input, 3));
            && w1.tables.circuits == RecordFailure(w.tables, call.key.project, call.threshold, input.now).circuits
            && w1.tables.byKey == w.tables.byKey && w1.tables.controller == w.tables.controller && w1.callers.Keys == w.callers.Keys
  {
    ExecSteps(w, c, input, 3);
    var w1 := AdvanceCaller(w, c, input);
    assert At(w1, c, call, Finishing(r, 1, input.executed));
    ExecSteps(w1, c, input, 2);
    var w2 := AdvanceCaller(w1, c, input);
    assert At(w2, c, call, w2.callers[c].pc) && w2.callers[c].pc.Recording? && w2.callers[c].pc.result == input.executed;
    ExecSteps(w2, c, input, 1);
    var w3 := AdvanceCaller(w2, c, input);
    assert Exec(w3, Steps(c, input, 0)) == w3;
  }

  lemma FailsOnce(w: World, c: CallerId, call: Call, input: Input)
    requires At(w, c, call, Lookup) && call.maxAttempts == 1 && input.executed.classification.Failed?
    requires Untouched(w, call.key.project, call.key, input.newId)
    ensures var w1 := Exec(w, Steps(c, input, 11));
            && w1.tables.circuits == RecordFailure(w.tables, call.key.project, call.threshold, input.now).circuits
            && w1.tables.byKey == w.tables.byKey[call.key := input.newId]
            && w1.tables.controller.Active? && w1.callers.Keys == w.callers.Keys
  {
    var r := input.newId;
    ComesToClaim(w, c, call, input, 11);
    var w1 := Goto(w, c, Claiming);
    ComesToAttempt(w1, c, call, input, 9);
    hide AdvanceCaller, Exec, Steps;
    var w2: World :| At(w2, c, call, Attempting(r, 1)) && w2.tables == InsertRun(w1.tables, r, call.key, input.now)
                     && w2.callers.Keys == w1.callers.Keys && Exec(w1, Steps(c, input, 9)) == Exec(w2, Steps(c, input, 6));
    ComesToAppend(w2, c, call, input, r, 6);
    var w3: World :| At(w3, c, call, Appending(r, 1, input.executed)) && w3.tables == w2.tables
                     && w3.callers.Keys == w2.callers.Keys && Exec(w2, Steps(c, input, 6)) == Exec(w3, Steps(c, input, 3));
    RecordsFailure(w3, c, call, input, r);
  }

  /**
   A run in which a claim raises: a call with threshold 2 records the project's first failure, then a
   call with threshold 1 claims. Its exception ends that call.
   */
  lemma MixedThresholdsRaise(p: ProjectId, input: Input)
    requires input.executed.classification.Failed?
    ensures var one, two := Call(RequestKey(p, "t", "a"), 1, 2, 0), Call(RequestKey(p, "u", "a"), 1, 1, 0);
            var actions := [StartCall(0, one)] + Steps(0, input, 11) + [StartCall(1, two)] + Steps(1, input, 2);
            var w := Exec(INITIAL, actions);
            && 1 in w.callers && w.callers[1].pc.Claiming?
            && ClaimAnswer(w.tables, p, 1, 0, input.now).Raised?
            && Exec(INITIAL, actions + [Advance(1, input)]).callers.Keys == {0, 1}
            && Exec(INITIAL, actions + [Advance(1, input)]).callers[1].pc.Dead?
  {
    var one, two := Call(RequestKey(p, "t", "a"), 1, 2, 0), Call(RequestKey(p, "u", "a"), 1, 1, 0);
    var first := [StartCall(0, one)] + Steps(0, input, 11);
    var w0 := Next(INITIAL, StartCall(0, one));
    ExecConcat(INITIAL, [StartCall(0, one)], Steps(0, input, 11));
    assert Exec(INITIAL, [StartCall(0, one)]) == w0;
    FailsOnce(w0, 0, one, input);
    var w1 := Exec(INITIAL, first);
    ExecSnoc(INITIAL, first, StartCall(1, two));
    var w2 := Next(w1, StartCall(1, two));
    ComesToClaim(w2, 1, two, input, 2);
    ExecConcat(INITIAL, first + [StartCall(1, two)], Steps(1, input, 2));
    var w3 := Goto(w2, 1, Claiming);
    assert Exec(w3, Steps(1, input, 0)) == w3;
    ExecSnoc(INITIAL, first + [StartCall(1, two)] + Steps(1, input, 2), Advance(1, input));
  }
}
