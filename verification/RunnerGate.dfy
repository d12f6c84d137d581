/** What the gate keeps out, and what a call that passes it does when nobody disturbs it. */
module RunnerGate {
  import opened Common
  import opened TaskTables
  import opened RunnerProtocol
  import opened RunnerOwnership
  import opened RunnerCircuit
  import opened RunnerAdmission
  import opened RunnerResults
  import opened RunnerStop

  // ---- a closed gate ----

  /** The steps of call `c` in a run leave every table and all history as they find them. */
  ghost predicate TouchesNothing(w: World, actions: seq<Action>, c: CallerId)
    decreases |actions|
  {
    actions != [] ==>
      && (actions[0].Advance? && actions[0].caller == c ==>
            Next(w, actions[0]).tables == w.tables && Next(w, actions[0]).history == w.history)
      && TouchesNothing(Next(w, actions[0]), actions[1..], c)
  }

  /** The call has been refused or answered, or has not come past its gate. */
  predicate Outside(w: World, c: CallerId) {
    c in w.callers ==> var pc := w.callers[c].pc; pc.Lookup? || pc.Gate? || pc.Refused? || pc.Returned? || pc.Dead?
  }

  lemma OutsideStepTouchesNothing(w: World, c: CallerId, input: Input)
    requires c in w.callers && Outside(w, c) && !w.tables.controller.Active?
    ensures var w1 := AdvanceCaller(w, c, input); w1.tables == w.tables && w1.history == w.history && Outside(w1, c)
  {
  }

  lemma StepStaysOutside(w: World, a: Action, c: CallerId)
    requires Outside(w, c) && !w.tables.controller.Active?
    ensures Outside(Next(w, a), c)
    ensures a.Advance? && a.caller == c ==> Next(w, a).tables == w.tables && Next(w, a).history == w.history
  {
    if a.Advance? {
      if a.caller in w.callers {
        if a.caller == c { OutsideStepTouchesNothing(w, c, a.input); } else { AdvancePcOnlyMoves(w, a.caller, a.input, c); }
      }
    } else {
      OtherStepShape(w, a);
    }
  }

  lemma {:induction false} RunStaysOutside(w: World, actions: seq<Action>, c: CallerId)
    requires ControlOk(w) && Outside(w, c) && !w.tables.controller.Active?
    requires CompleteRecovery !in CommittedOps(w, Exec(w, actions))
    ensures Outside(Exec(w, actions), c) && TouchesNothing(w, actions, c)
    decreases |actions|
  {
    if actions != [] {
      var a, rest := actions[0], actions[1..];
      var w1 := Next(w, a);
      StepKeepsControl(w, a);
      OnlyRecoveryActivates(w, a);
      OpsOnlyGrow(w1, rest);
      AbsentFromLaterOps(Exec(w1, rest).history.controlOps, |w.history.controlOps|, |w1.history.controlOps|, CompleteRecovery);
      StepStaysOutside(w, a, c);
      hide Next, Outside, ControlOk;
      RunStaysOutside(w1, rest, c);
    }
  }

  /** No entry of the history is by this call. */
  predicate NotIn(log: seq<CircuitEntry>, c: CallerId) {
    forall i :: 0 <= i < |log| ==> log[i].caller != c
  }

  /** It wrote no attempt. */
  ghost predicate WroteNothing(w: World, c: CallerId) {
    forall r, n :: n in Of(w.history.attemptBy, r) ==> Of(w.history.attemptBy, r)[n] != c
  }

  /** Before its claim a call is nowhere in the project's history, and wrote no attempt. */
  ghost predicate Unseen(w: World, p: ProjectId, c: CallerId) {
    NotIn(Log(w, p), c) && WroteNothing(w, c)
  }

  predicate BeforeClaim(w: World, c: CallerId) {
    c in w.callers ==> w.callers[c].pc.Lookup? || w.callers[c].pc.Gate?
  }

  lemma OthersStepKeepsUnseen(w: World, d: CallerId, input: Input, p: ProjectId, c: CallerId)
    requires d in w.callers && d != c && Unseen(w, p, c)
    ensures Unseen(AdvanceCaller(w, d, input), p, c)
  {
    AdvanceCircuitShape(w, d, input, p);
    AppendWritesResult(w, d, input);
    var w1 := AdvanceCaller(w, d, input);
    assert CoreOf(w1).attemptBy == w1.history.attemptBy && CoreOf(w).attemptBy == w.history.attemptBy;
    hide AdvanceCaller, Log, RowAt, RecordFailure, ClaimAnswer, CoreOf;
    PutKeepsOthers(w.history.attemptBy, w1.history.attemptBy, c, d);
  }

  lemma PutKeepsOthers(rows: ByAttempt<CallerId>, rows1: ByAttempt<CallerId>, c: CallerId, d: CallerId)
    requires c != d && (rows1 == rows || exists r, n :: rows1 == Put(rows, r, n, d))
    requires forall r, n :: n in Of(rows, r) ==> Of(rows, r)[n] != c
    ensures forall r, n :: n in Of(rows1, r) ==> Of(rows1, r)[n] != c
  {
    if rows1 != rows {
      var r, n :| rows1 == Put(rows, r, n, d);
      forall r1, n1 | n1 in Of(rows1, r1) ensures Of(rows1, r1)[n1] != c {
        if r1 == r { assert Of(rows1, r) == Of(rows, r)[n := d]; } else { assert Of(rows1, r1) == Of(rows, r1); }
      }
    }
  }

  lemma StepKeepsUnseen(w: World, a: Action, p: ProjectId, c: CallerId)
    requires Unseen(w, p, c)
    requires a.Advance? && a.caller == c ==> Next(w, a).tables == w.tables && Next(w, a).history == w.history
    ensures Unseen(Next(w, a), p, c)
  {
    if a.Advance? {
      if a.caller in w.callers && a.caller != c { OthersStepKeepsUnseen(w, a.caller, a.input, p, c); }
    } else {
      OtherStepShape(w, a);
      OtherStepCircuitShape(w, a, p);
      assert CoreOf(Next(w, a)).attemptBy == Next(w, a).history.attemptBy;
    }
  }

  lemma {:induction false} RunKeepsUnseen(w: World, actions: seq<Action>, p: ProjectId, c: CallerId)
    requires Unseen(w, p, c) && TouchesNothing(w, actions, c)
    ensures Unseen(Exec(w, actions), p, c)
    decreases |actions|
  {
    if actions != [] {
      StepKeepsUnseen(w, actions[0], p, c);
      hide Next, Unseen;
      RunKeepsUnseen(Next(w, actions[0]), actions[1..], p, c);
    }
  }

  /** What a call has done before its claim: nothing. */
  lemma StepToClaimTouchesNothing(w: World, a: Action, c: CallerId)
    requires BeforeClaim(Next(w, a), c)
    ensures BeforeClaim(w, c)
    ensures a.Advance? && a.caller == c ==> Next(w, a).tables == w.tables && Next(w, a).history == w.history
  {
    if a.Advance? {
      if a.caller in w.callers {
        if a.caller == c { OwnStepToClaim(w, c, a.input); } else { AdvancePcOnlyMoves(w, a.caller, a.input, c); }
      }
    } else {
      OtherStepShape(w, a);
    }
  }

  lemma OwnStepToClaim(w: World, c: CallerId, input: Input)
    requires c in w.callers && BeforeClaim(AdvanceCaller(w, c, input), c)
    ensures var w1 := AdvanceCaller(w, c, input); BeforeClaim(w, c) && w1.tables == w.tables && w1.history == w.history
  {
    match w.callers[c].pc
    case Claiming =>
    case Appending(_, _, _) =>
    case Finishing(_, _, _) =>
    case Recording(_, _, _) =>
    case _ =>
  }

  lemma {:induction false} RunBeforeClaim(actions: seq<Action>, p: ProjectId, c: CallerId)
    requires BeforeClaim(Exec(INITIAL, actions), c)
    ensures Unseen(Exec(INITIAL, actions), p, c)
  {
    if actions == [] {
    } else {
      var front, last := actions[..|actions| - 1], actions[|actions| - 1];
      assert actions == front + [last];
      ExecSnoc(INITIAL, front, last);
      StepToClaimTouchesNothing(Exec(INITIAL, front), last, c);
      hide Next, BeforeClaim, Unseen, Exec;
      RunBeforeClaim(front, p, c);
      StepKeepsUnseen(Exec(INITIAL, front), last, p, c);
    }
  }

  /**
   A closed gate keeps out. A call that has not come past its gate when the controller is not ACTIVE, and
   any call started then, is never admitted, starts no executor, records nothing, writes no attempt and
   changes no table, until a recovery completes. If it answers at all, it is refused or returns a finished
   row of its key that another call finished.
   */
  lemma ClosedGateKeepsOut(before: seq<Action>, after: seq<Action>, c: CallerId)
    requires var w := Exec(INITIAL, before);
             && !w.tables.controller.Active?
             && (c in w.callers ==> w.callers[c].pc.Lookup? || w.callers[c].pc.Gate?)
    requires CompleteRecovery !in CommittedOps(Exec(INITIAL, before), Exec(INITIAL, before + after))
    ensures var w2 := Exec(INITIAL, before + after);
            && TouchesNothing(Exec(INITIAL, before), after, c)
            && (forall p, i :: 0 <= i < |Log(w2, p)| ==> Log(w2, p)[i].caller != c)
            && (forall r, n :: n in Of(w2.history.attemptBy, r) ==> Of(w2.history.attemptBy, r)[n] != c)
            && (c in w2.callers ==>
                  var pc := w2.callers[c].pc;
                  || pc.Lookup? || pc.Gate? || pc.Refused? || pc.Dead?
                  || (pc.Returned? && pc.row.key == w2.callers[c].call.key && pc.row.state.Finished?
                      && pc.run in w2.tables.runs && w2.tables.runs[pc.run] == pc.row
                      && pc.run in w2.history.finishedBy && w2.history.finishedBy[pc.run] != c))
  {
    var w, w2 := Exec(INITIAL, before), Exec(INITIAL, before + after);
    ExecConcat(INITIAL, before, after);
    ExecKeepsControl(INITIAL, before);
    RunStaysOutside(w, after, c);
    forall p ensures Unseen(w2, p, c) {
      RunBeforeClaim(before, p, c);
      RunKeepsUnseen(w, after, p, c);
    }
    assert WroteNothing(w2, c) by { assert Unseen(w2, "", c); }
    InitialInv();
    ExecKeepsInv(INITIAL, before + after);
    hide TouchesNothing, ControlOk, Unseen, CommittedOps, Exec;
    assert forall p :: NotIn(Log(w2, p), c) by { forall p ensures NotIn(Log(w2, p), c) { UnseenParts(w2, p, c); } }
    hide Log;
    if c in w2.callers && w2.callers[c].pc.Returned? { ReturnedRowIsOthers(w2, c); }
  }

  lemma UnseenParts(w: World, p: ProjectId, c: CallerId)
    requires Unseen(w, p, c)
    ensures NotIn(Log(w, p), c)
  {
  }

  lemma ReturnedRowIsOthers(w: World, c: CallerId)
    requires Inv(w) && WroteNothing(w, c) && c in w.callers && w.callers[c].pc.Returned?
    ensures var pc := w.callers[c].pc;
            && pc.row.key == w.callers[c].call.key && pc.row.state.Finished?
            && pc.run in w.tables.runs && w.tables.runs[pc.run] == pc.row
            && pc.run in w.history.finishedBy && w.history.finishedBy[pc.run] != c
  {
    var k, pc := CoreOf(w), w.callers[c].pc;
    assert CallerOk(k, c, w.callers[c]);
    assert RowOk(k, pc.run) && StateAgrees(k, pc.run);
  }

  // ---- an undisturbed call ----

  /** Call `c` takes a step with each of the inputs, and nobody else takes one. */
  function Own(c: CallerId, inputs: seq<Input>): seq<Action> {
    seq(|inputs|, i requires 0 <= i < |inputs| => Advance(c, inputs[i]))
  }

  lemma OwnStep(w: World, c: CallerId, inputs: seq<Input>)
    requires c in w.callers && inputs != []
    ensures Exec(w, Own(c, inputs)) == Exec(AdvanceCaller(w, c, inputs[0]), Own(c, inputs[1..]))
  {
    hide AdvanceCaller;
    assert Own(c, inputs)[1..] == Own(c, inputs[1..]);
  }

  predicate TriedAgain(result: ExecutionResult) {
    result.classification == Failed || result.classification == TimedOut
  }

  /** What the executor answers to the attempts of a call: all but the last are tried again, the last is not or may not be. */
  predicate Ends(answers: seq<ExecutionResult>, from: nat, maxAttempts: nat) {
    && answers != []
    && (forall j :: 0 <= j < |answers| - 1 ==> TriedAgain(answers[j]))
    && (!TriedAgain(answers[|answers| - 1]) || from + |answers| == maxAttempts)
    && from + |answers| <= maxAttempts
  }

  /** The inputs of the attempts and of the end of a call: four steps for an attempt, the third of which executes. */
  predicate Answering(inputs: seq<Input>, answers: seq<ExecutionResult>) {
    && |inputs| == 4 * |answers| + 2
    && forall j :: 0 <= j < |answers| ==> inputs[4 * j + 2].executed == answers[j]
  }

  /** The rows of its attempts, the first of them number `from + 1`. */
  function AttemptRows(inputs: seq<Input>, answers: seq<ExecutionResult>, from: nat): map<nat, AttemptRow>
    requires Answering(inputs, answers)
    decreases |answers|
  {
    if answers == [] then map[]
    else
      AnsweringRest(inputs, answers);
      map[from + 1 := AttemptRow(answers[0], inputs[3].now)] + AttemptRows(inputs[4..], answers[1..], from + 1)
  }

  /** When the result of a call is stored, and when it is recorded: its last two steps. */
  function FinishedAt(inputs: seq<Input>): int
    requires |inputs| >= 2
  {
    inputs[|inputs| - 2].now
  }

  function RecordedAt(inputs: seq<Input>): int
    requires |inputs| >= 2
  {
    inputs[|inputs| - 1].now
  }

  lemma AnsweringRest(inputs: seq<Input>, answers: seq<ExecutionResult>)
    requires Answering(inputs, answers) && answers != []
    ensures Answering(inputs[4..], answers[1..])
  {
    forall j | 0 <= j < |answers[1..]| ensures inputs[4..][4 * j + 2].executed == answers[1..][j] {
      assert inputs[4 * (j + 1) + 2].executed == answers[j + 1];
    }
  }

  /** What the circuit of a project looks like once a run that ended at `now` is recorded. */
  function RecordedRow(row: Option<CircuitRow>, success: bool, threshold: nat, now: int): Option<CircuitRow> {
    var failures := (if row.Some? then row.value.failures else 0) + 1;
    if success then None else Some(CircuitRow(failures, if failures >= threshold then Some(now) else None, false))
  }

  function Entries(c: CallerId, starts: nat, last: CircuitEntry): seq<CircuitEntry> {
    if starts == 0 then [last] else [Started(c)] + Entries(c, starts - 1, last)
  }

  /** The row of a run that ended with `last`. */
  function FinalRow(row: RunRow, last: ExecutionResult, count: nat, now: int): RunRow {
    row.(state := Finished(last.classification), attemptCount := count, result := Some(last), finishedAt := Some(now))
  }

  /** A call has ended: its run has become `row` with these attempts, and the circuit has heard of it. */
  ghost predicate Completed(w: World, w1: World, c: CallerId, call: Call, r: RunId, row: RunRow, attempts: map<nat, AttemptRow>,
                            starts: nat, recorded: int)
  {
    var p, success := call.key.project, row.state == Finished(Success);
    && At(w1, c, call, Returned(r, row))
    && w1.callers.Keys == w.callers.Keys && (forall o :: o in w.callers && o != c ==> w1.callers[o] == w.callers[o])
    && w1.tables.runs == w.tables.runs[r := row] && w1.tables.byKey == w.tables.byKey
    && w1.tables.controller == w.tables.controller && w1.tables.controlEvents == w.tables.controlEvents
    && w1.tables.attempts == w.tables.attempts[r := attempts]
    && RowAt(w1.tables, p) == RecordedRow(RowAt(w.tables, p), success, call.threshold, recorded)
    && Log(w1, p) == Log(w, p) + Entries(c, starts, Recorded(c, r, success, recorded))
  }

  ghost predicate ReadyToAttempt(w: World, c: CallerId, call: Call, r: RunId, from: nat) {
    && At(w, c, call, Attempting(r, from + 1)) && w.tables.controller.Active?
    && r in w.tables.runs && w.tables.runs[r].state.Running? && w.tables.runs[r].attemptCount == from
    && (forall n :: n in Of(w.tables.attempts, r) ==> n <= from)
  }

  /** The world after one attempt: its start, its row, and the number of attempts. */
  ghost predicate Attempted(w: World, w1: World, c: CallerId, call: Call, r: RunId, number: nat, row: AttemptRow, pc: Pc)
    requires r in w.tables.runs
  {
    && At(w1, c, call, pc)
    && w1.callers.Keys == w.callers.Keys && (forall o :: o in w.callers && o != c ==> w1.callers[o] == w.callers[o])
    && w1.tables == w.tables.(runs := w.tables.runs[r := w.tables.runs[r].(attemptCount := number)],
                              attempts := w.tables.attempts[r := Of(w.tables.attempts, r)[number := row]])
    && Log(w1, call.key.project) == Log(w, call.key.project) + [Started(c)]
  }

  /** The world in which an attempt has been executed. */
  function Executed(w: World, c: CallerId, r: RunId, number: nat, result: ExecutionResult): World
    requires c in w.callers
  {
    Goto(Note(w, w.callers[c].call.key.project, Started(c)), c, Appending(r, number, result))
  }

  lemma AttemptSteps(w: World, c: CallerId, call: Call, r: RunId, number: nat, i: Input, j: Input, k: Input)
    requires At(w, c, call, Attempting(r, number)) && w.tables.controller.Active?
    ensures var w1 := AdvanceCaller(w, c, i);
            c in w1.callers && var w2 := AdvanceCaller(w1, c, j);
            c in w2.callers && AdvanceCaller(w2, c, k) == Executed(w, c, r, number, k.executed)
  {
    var w1 := AdvanceCaller(w, c, i);
    assert w1 == Goto(w, c, Cleared(r, number));
    var w2 := AdvanceCaller(w1, c, j);
    assert w2 == Goto(Note(w1, call.key.project, Started(c)), c, Executing(r, number));
    var w3 := AdvanceCaller(w2, c, k);
    assert w3.callers == Executed(w, c, r, number, k.executed).callers;
    assert w3.history == Executed(w, c, r, number, k.executed).history;
  }

  /** From an attempt to its result. */
  lemma AttemptExecutes(w: World, c: CallerId, call: Call, r: RunId, number: nat, inputs: seq<Input>)
    requires At(w, c, call, Attempting(r, number)) && w.tables.controller.Active? && |inputs| >= 3
    ensures Exec(w, Own(c, inputs)) == Exec(Executed(w, c, r, number, inputs[2].executed), Own(c, inputs[3..]))
  {
    hide Exec, Own, AdvanceCaller, Executed;
    AttemptSteps(w, c, call, r, number, inputs[0], inputs[1], inputs[2]);
    OwnStep(w, c, inputs);
    var w1 := AdvanceCaller(w, c, inputs[0]);
    OwnStep(w1, c, inputs[1..]);
    assert inputs[1..][1..] == inputs[2..] && inputs[2..][1..] == inputs[3..];
    OwnStep(AdvanceCaller(w1, c, inputs[1]), c, inputs[2..]);
  }

  lemma AppendGoesOn(w: World, c: CallerId, call: Call, r: RunId, number: nat, result: ExecutionResult, input: Input)
    requires At(w, c, call, Appending(r, number, result)) && r in w.tables.runs && 1 <= number <= 3
    requires number !in Of(w.tables.attempts, r)
    ensures var w1 := AdvanceCaller(w, c, input);
            && w1.callers == w.callers[c := Caller(call, if TriedAgain(result) && number < call.maxAttempts then Attempting(r, number + 1)
                                                         else Finishing(r, number, result))]
            && w1.tables == w.tables.(runs := w.tables.runs[r := w.tables.runs[r].(attemptCount := number)],
                                      attempts := w.tables.attempts[r := Of(w.tables.attempts, r)[number := AttemptRow(result, input.now)]])
            && Log(w1, call.key.project) == Log(w, call.key.project)
  {
  }

  /** The world after one attempt. */
  function AttemptedWorld(w: World, c: CallerId, r: RunId, number: nat, inputs: seq<Input>): World
    requires c in w.callers && |inputs| >= 4
  {
    AdvanceCaller(Executed(w, c, r, number, inputs[2].executed), c, inputs[3])
  }

  lemma OneAttempt(w: World, c: CallerId, call: Call, r: RunId, from: nat, inputs: seq<Input>)
    requires ReadyToAttempt(w, c, call, r, from) && from < call.maxAttempts <= 3 && |inputs| >= 4
    ensures var result, w1 := inputs[2].executed, AttemptedWorld(w, c, r, from + 1, inputs);
            && Exec(w, Own(c, inputs)) == Exec(w1, Own(c, inputs[4..]))
            && Attempted(w, w1, c, call, r, from + 1, AttemptRow(result, inputs[3].now),
                         if TriedAgain(result) && from + 1 < call.maxAttempts then Attempting(r, from + 2) else Finishing(r, from + 1, result))
  {
    hide Exec, AdvanceCaller, Executed, Log, Own, ReadyToAttempt, Attempted, Of, TriedAgain;
    var result := inputs[2].executed;
    ReadyParts(w, c, call, r, from);
    AttemptExecutes(w, c, call, r, from + 1, inputs);
    var w1 := Executed(w, c, r, from + 1, result);
    ExecutedShape(w, c, call, r, from + 1, result);
    OwnStep(w1, c, inputs[3..]);
    assert inputs[3..][1..] == inputs[4..] && inputs[3..][0] == inputs[3];
    AppendGoesOn(w1, c, call, r, from + 1, result, inputs[3]);
    var pc := if TriedAgain(result) && from + 1 < call.maxAttempts then Attempting(r, from + 2) else Finishing(r, from + 1, result);
    AttemptedShape(w, w1, AdvanceCaller(w1, c, inputs[3]), c, call, r, from + 1, AttemptRow(result, inputs[3].now), pc);
  }

  lemma ReadyParts(w: World, c: CallerId, call: Call, r: RunId, from: nat)
    requires ReadyToAttempt(w, c, call, r, from)
    ensures At(w, c, call, Attempting(r, from + 1)) && w.tables.controller.Active?
    ensures r in w.tables.runs && from + 1 !in Of(w.tables.attempts, r)
  {
  }

  lemma AttemptedShape(w: World, w1: World, w2: World, c: CallerId, call: Call, r: RunId, number: nat, row: AttemptRow, pc: Pc)
    requires c in w.callers && r in w.tables.runs
    requires w1.tables == w.tables && c in w1.callers && w1.callers == w.callers[c := w1.callers[c]]
    requires w2.callers == w1.callers[c := Caller(call, pc)]
    requires w2.tables == w.tables.(runs := w.tables.runs[r := w.tables.runs[r].(attemptCount := number)],
                                    attempts := w.tables.attempts[r := Of(w.tables.attempts, r)[number := row]])
    requires Log(w2, call.key.project) == Log(w, call.key.project) + [Started(c)]
    ensures Attempted(w, w2, c, call, r, number, row, pc)
  {
    hide Log, Of;
  }

  lemma ExecutedShape(w: World, c: CallerId, call: Call, r: RunId, number: nat, result: ExecutionResult)
    requires c in w.callers && w.callers[c].call == call
    ensures var w1 := Executed(w, c, r, number, result);
            && At(w1, c, call, Appending(r, number, result)) && w1.tables == w.tables
            && w1.callers == w.callers[c := Caller(call, Appending(r, number, result))]
            && Log(w1, call.key.project) == Log(w, call.key.project) + [Started(c)]
  {
  }

  /** The end of a call: its result is stored and recorded. */
  ghost predicate Closed(w: World, w1: World, c: CallerId, call: Call, r: RunId, last: ExecutionResult, finished: int, recorded: int)
    requires r in w.tables.runs
  {
    var p, success := call.key.project, last.classification == Success;
    var row := w.tables.runs[r].(state := Finished(last.classification), result := Some(last), finishedAt := Some(finished));
    && At(w1, c, call, Returned(r, row))
    && w1.callers.Keys == w.callers.Keys && (forall o :: o in w.callers && o != c ==> w1.callers[o] == w.callers[o])
    && w1.tables == w.tables.(runs := w.tables.runs[r := row], circuits := w1.tables.circuits)
    && RowAt(w1.tables, p) == RecordedRow(RowAt(w.tables, p), success, call.threshold, recorded)
    && Log(w1, p) == Log(w, p) + [Recorded(c, r, success, recorded)]
  }

  lemma ResultIsRecorded(w: World, c: CallerId, call: Call, r: RunId, number: nat, last: ExecutionResult, inputs: seq<Input>)
    requires At(w, c, call, Finishing(r, number, last)) && r in w.tables.runs && w.tables.runs[r].state.Running? && |inputs| == 2
    ensures Closed(w, Exec(w, Own(c, inputs)), c, call, r, last, inputs[0].now, inputs[1].now)
  {
    OwnStep(w, c, inputs);
    var w1 := AdvanceCaller(w, c, inputs[0]);
    FinishStepShape(w, c, inputs[0], r, number, last);
    assert w1.tables == w.tables.(runs := w1.tables.runs) && Log(w1, call.key.project) == Log(w, call.key.project);
    OwnStep(w1, c, inputs[1..]);
    var w2 := AdvanceCaller(w1, c, inputs[1]);
    assert Own(c, inputs[1..][1..]) == [];
    assert Exec(w2, []) == w2;
    hide Exec, Own;
    RecordStep(w1, c, call, r, last, w1.tables.runs[r], inputs[1]);
    hide AdvanceCaller, RecordedRow, Log, RowAt;
    assert RowAt(w1.tables, call.key.project) == RowAt(w.tables, call.key.project) by { SameCircuits(w.tables, w1.tables, call.key.project); }
  }

  lemma SameCircuits(t: Tables, t1: Tables, p: ProjectId)
    requires t1.circuits == t.circuits
    ensures RowAt(t1, p) == RowAt(t, p)
  {
  }

  lemma RecordStep(w: World, c: CallerId, call: Call, r: RunId, last: ExecutionResult, row: RunRow, input: Input)
    requires At(w, c, call, Recording(r, last, row))
    ensures var w1, p := AdvanceCaller(w, c, input), call.key.project;
            && w1.callers == w.callers[c := Caller(call, Returned(r, row))]
            && w1.tables == w.tables.(circuits := w1.tables.circuits)
            && RowAt(w1.tables, p) == RecordedRow(RowAt(w.tables, p), last.classification == Success, call.threshold, input.now)
            && Log(w1, p) == Log(w, p) + [Recorded(c, r, last.classification == Success, input.now)]
  {
  }

  lemma {:induction false} AttemptsComplete(w: World, c: CallerId, call: Call, r: RunId, from: nat,
                                            inputs: seq<Input>, answers: seq<ExecutionResult>)
    requires ReadyToAttempt(w, c, call, r, from) && call.maxAttempts <= 3
    requires Answering(inputs, answers) && Ends(answers, from, call.maxAttempts)
    ensures Completed(w, Exec(w, Own(c, inputs)), c, call, r,
                      FinalRow(w.tables.runs[r], answers[|answers| - 1], from + |answers|, FinishedAt(inputs)),
                      Of(w.tables.attempts, r) + AttemptRows(inputs, answers, from), |answers|, RecordedAt(inputs))
    decreases |answers|
  {
    hide *;
    SomeAnswer(answers, from, call.maxAttempts);
    Lengths(inputs, answers);
    FirstAnswer(w, c, call, r, from, inputs, answers);
    StillThere(w, c, call, r, from);
    var w1 := AttemptedWorld(w, c, r, from + 1, inputs);
    if |answers| == 1 {
      OnlyAnswer(w, w1, c, call, r, from, inputs, answers);
    } else {
      FirstOfMany(w, w1, c, call, r, from, inputs, answers);
      AttemptsComplete(w1, c, call, r, from + 1, inputs[4..], answers[1..]);
      StillThere(w1, c, call, r, from + 1);
      ManyAnswers(w, w1, Exec(w, Own(c, inputs)), c, call, r, from, inputs, answers);
    }
  }

  lemma Lengths(inputs: seq<Input>, answers: seq<ExecutionResult>)
    requires Answering(inputs, answers)
    ensures |inputs| >= 2 && (answers != [] ==> |inputs| >= 6)
    ensures |answers| == 1 ==> |inputs| == 6
  {
  }

  lemma SomeAnswer(answers: seq<ExecutionResult>, from: nat, maxAttempts: nat)
    requires Ends(answers, from, maxAttempts)
    ensures answers != []
  {
  }

  lemma StillThere(w: World, c: CallerId, call: Call, r: RunId, from: nat)
    requires ReadyToAttempt(w, c, call, r, from)
    ensures c in w.callers && r in w.tables.runs
  {
  }

  lemma FirstAnswer(w: World, c: CallerId, call: Call, r: RunId, from: nat, inputs: seq<Input>, answers: seq<ExecutionResult>)
    requires ReadyToAttempt(w, c, call, r, from) && call.maxAttempts <= 3 && |inputs| >= 4
    requires Answering(inputs, answers) && Ends(answers, from, call.maxAttempts)
    ensures var w1 := AttemptedWorld(w, c, r, from + 1, inputs);
            && Exec(w, Own(c, inputs)) == Exec(w1, Own(c, inputs[4..]))
            && Attempted(w, w1, c, call, r, from + 1, AttemptRow(answers[0], inputs[3].now),
                         if |answers| > 1 then Attempting(r, from + 2) else Finishing(r, from + 1, answers[0]))
  {
    hide AttemptedWorld, Exec, Own, Attempted, ReadyToAttempt;
    assert inputs[4 * 0 + 2].executed == answers[0];
    OneAttempt(w, c, call, r, from, inputs);
  }

  lemma OnlyAnswer(w: World, w1: World, c: CallerId, call: Call, r: RunId, from: nat, inputs: seq<Input>, answers: seq<ExecutionResult>)
    requires ReadyToAttempt(w, c, call, r, from) && Answering(inputs, answers) && |answers| == 1
    requires Exec(w, Own(c, inputs)) == Exec(w1, Own(c, inputs[4..]))
    requires Attempted(w, w1, c, call, r, from + 1, AttemptRow(answers[0], inputs[3].now), Finishing(r, from + 1, answers[0]))
    ensures Completed(w, Exec(w, Own(c, inputs)), c, call, r, FinalRow(w.tables.runs[r], answers[0], from + 1, FinishedAt(inputs)),
                      Of(w.tables.attempts, r) + AttemptRows(inputs, answers, from), 1, RecordedAt(inputs))
  {
    var first := AttemptRow(answers[0], inputs[3].now);
    OneRow(inputs, answers, from, Of(w.tables.attempts, r));
    assert answers[1..] == [];
    assert Of(w.tables.attempts, r)[from + 1 := first] + map[] == Of(w.tables.attempts, r)[from + 1 := first];
    AttemptedTables(w, w1, c, call, r, from + 1, first, Finishing(r, from + 1, answers[0]));
    assert w1.tables.runs[r].state.Running? && At(w1, c, call, Finishing(r, from + 1, answers[0]));
    assert AttemptRows(inputs[4..], answers[1..], from + 1) == map[];
    hide Exec, Own, Completed, FinalRow, ReadyToAttempt, Attempted, At, AttemptRows, Of;
    ResultIsRecorded(w1, c, call, r, from + 1, answers[0], inputs[4..]);
    LastAttempt(w, w1, Exec(w, Own(c, inputs)), c, call, r, from + 1, first, answers[0], inputs[4].now, inputs[5].now);
  }

  lemma FirstOfMany(w: World, w1: World, c: CallerId, call: Call, r: RunId, from: nat, inputs: seq<Input>, answers: seq<ExecutionResult>)
    requires ReadyToAttempt(w, c, call, r, from) && |answers| > 1
    requires Answering(inputs, answers) && Ends(answers, from, call.maxAttempts)
    requires Attempted(w, w1, c, call, r, from + 1, AttemptRow(answers[0], inputs[3].now), Attempting(r, from + 2))
    ensures ReadyToAttempt(w1, c, call, r, from + 1) && Answering(inputs[4..], answers[1..]) && Ends(answers[1..], from + 1, call.maxAttempts)
  {
    AnsweringRest(inputs, answers);
    EndsRest(answers, from, call.maxAttempts);
    StillReady(w, w1, c, call, r, from, AttemptRow(answers[0], inputs[3].now));
    hide *;
  }

  lemma ManyAnswers(w: World, w1: World, w2: World, c: CallerId, call: Call, r: RunId, from: nat,
                    inputs: seq<Input>, answers: seq<ExecutionResult>)
    requires ReadyToAttempt(w, c, call, r, from) && Answering(inputs, answers) && |answers| > 1 && Answering(inputs[4..], answers[1..])
    requires Attempted(w, w1, c, call, r, from + 1, AttemptRow(answers[0], inputs[3].now), Attempting(r, from + 2))
    requires r in w1.tables.runs
    requires Completed(w1, w2, c, call, r,
                       FinalRow(w1.tables.runs[r], answers[1..][|answers[1..]| - 1], from + 1 + |answers[1..]|, FinishedAt(inputs[4..])),
                       Of(w1.tables.attempts, r) + AttemptRows(inputs[4..], answers[1..], from + 1), |answers[1..]|, RecordedAt(inputs[4..]))
    ensures Completed(w, w2, c, call, r, FinalRow(w.tables.runs[r], answers[|answers| - 1], from + |answers|, FinishedAt(inputs)),
                      Of(w.tables.attempts, r) + AttemptRows(inputs, answers, from), |answers|, RecordedAt(inputs))
  {
    hide *;
    Lengths(inputs, answers);
    StillThere(w, c, call, r, from);
    ManyFacts(w, w1, c, call, r, from, inputs, answers);
    var n, first, last := |answers|, AttemptRow(answers[0], inputs[3].now), answers[|answers| - 1];
    OneMoreAttempt(w, w1, w2, c, call, r, from + 1, first, FinalRow(w.tables.runs[r], last, from + n, FinishedAt(inputs)),
                   Of(w.tables.attempts, r) + AttemptRows(inputs, answers, from), n, RecordedAt(inputs));
  }

  lemma ManyFacts(w: World, w1: World, c: CallerId, call: Call, r: RunId, from: nat, inputs: seq<Input>, answers: seq<ExecutionResult>)
    requires r in w.tables.runs && Answering(inputs, answers) && |answers| > 1 && Answering(inputs[4..], answers[1..])
    requires Attempted(w, w1, c, call, r, from + 1, AttemptRow(answers[0], inputs[3].now), Attempting(r, from + 2))
    requires r in w1.tables.runs
    ensures FinishedAt(inputs[4..]) == FinishedAt(inputs) && RecordedAt(inputs[4..]) == RecordedAt(inputs)
    ensures Of(w1.tables.attempts, r) + AttemptRows(inputs[4..], answers[1..], from + 1)
         == Of(w.tables.attempts, r) + AttemptRows(inputs, answers, from)
    ensures FinalRow(w1.tables.runs[r], answers[1..][|answers[1..]| - 1], from + 1 + |answers[1..]|, FinishedAt(inputs))
         == FinalRow(w.tables.runs[r], answers[|answers| - 1], from + |answers|, FinishedAt(inputs))
    ensures |answers[1..]| == |answers| - 1
  {
    Lengths(inputs, answers);
    hide AttemptRows, Answering;
    OneRow(inputs, answers, from, Of(w.tables.attempts, r));
    AttemptedTables(w, w1, c, call, r, from + 1, AttemptRow(answers[0], inputs[3].now), Attempting(r, from + 2));
    SameFinalRow(w.tables.runs[r], from + 1, answers[|answers| - 1], from + |answers|, FinishedAt(inputs));
  }

  lemma SameFinalRow(row: RunRow, earlier: nat, last: ExecutionResult, count: nat, now: int)
    ensures FinalRow(row.(attemptCount := earlier), last, count, now) == FinalRow(row, last, count, now)
  {
  }

  lemma AttemptedTables(w: World, w1: World, c: CallerId, call: Call, r: RunId, number: nat, row: AttemptRow, pc: Pc)
    requires r in w.tables.runs && Attempted(w, w1, c, call, r, number, row, pc)
    ensures r in w1.tables.runs && w1.tables.runs[r] == w.tables.runs[r].(attemptCount := number)
    ensures Of(w1.tables.attempts, r) == Of(w.tables.attempts, r)[number := row]
  {
  }

  lemma EndsRest(answers: seq<ExecutionResult>, from: nat, maxAttempts: nat)
    requires Ends(answers, from, maxAttempts) && |answers| > 1
    ensures Ends(answers[1..], from + 1, maxAttempts)
  {
  }

  lemma StillReady(w: World, w1: World, c: CallerId, call: Call, r: RunId, from: nat, row: AttemptRow)
    requires ReadyToAttempt(w, c, call, r, from) && Attempted(w, w1, c, call, r, from + 1, row, Attempting(r, from + 2))
    ensures ReadyToAttempt(w1, c, call, r, from + 1)
  {
    assert Of(w1.tables.attempts, r) == Of(w.tables.attempts, r)[from + 1 := row];
  }

  lemma OneRow(inputs: seq<Input>, answers: seq<ExecutionResult>, from: nat, rows: map<nat, AttemptRow>)
    requires Answering(inputs, answers) && answers != []
    ensures Answering(inputs[4..], answers[1..])
    ensures rows + AttemptRows(inputs, answers, from)
         == rows[from + 1 := AttemptRow(answers[0], inputs[3].now)] + AttemptRows(inputs[4..], answers[1..], from + 1)
  {
    AnsweringRest(inputs, answers);
    var one := map[from + 1 := AttemptRow(answers[0], inputs[3].now)];
    var rest := AttemptRows(inputs[4..], answers[1..], from + 1);
    assert rows + (one + rest) == (rows + one) + rest;
    assert rows + one == rows[from + 1 := AttemptRow(answers[0], inputs[3].now)];
  }

  lemma LastAttempt(w: World, w1: World, w2: World, c: CallerId, call: Call, r: RunId, number: nat, first: AttemptRow,
                    last: ExecutionResult, finished: int, recorded: int)
    requires r in w.tables.runs && Attempted(w, w1, c, call, r, number, first, Finishing(r, number, last))
    requires r in w1.tables.runs && Closed(w1, w2, c, call, r, last, finished, recorded)
    ensures Completed(w, w2, c, call, r, FinalRow(w.tables.runs[r], last, number, finished),
                      Of(w.tables.attempts, r)[number := first], 1, recorded)
  {
    var p := call.key.project;
    var entry := Recorded(c, r, last.classification == Success, recorded);
    assert Entries(c, 0, entry) == [entry];
    assert Entries(c, 1, entry) == [Started(c)] + [entry];
    SameCircuits(w.tables, w1.tables, p);
    hide Log, RowAt, RecordedRow, Entries, Of;
    assert Log(w, p) + [Started(c)] + [entry] == Log(w, p) + ([Started(c)] + [entry]);
  }

  lemma OneMoreAttempt(w: World, w1: World, w2: World, c: CallerId, call: Call, r: RunId, number: nat, first: AttemptRow,
                       row: RunRow, attempts: map<nat, AttemptRow>, n: nat, recorded: int)
    requires r in w.tables.runs && Attempted(w, w1, c, call, r, number, first, Attempting(r, number + 1)) && n > 0
    requires Completed(w1, w2, c, call, r, row, attempts, n - 1, recorded)
    ensures Completed(w, w2, c, call, r, row, attempts, n, recorded)
  {
    var p := call.key.project;
    SameCircuits(w.tables, w1.tables, p);
    var entry := Recorded(c, r, row.state == Finished(Success), recorded);
    assert Entries(c, n, entry) == [Started(c)] + Entries(c, n - 1, entry);
    hide Log, RowAt, RecordedRow, Entries, Of;
    assert Log(w, p) + [Started(c)] + Entries(c, n - 1, entry) == Log(w, p) + ([Started(c)] + Entries(c, n - 1, entry));
  }

  /** A new request meets an open gate and a closed circuit: its key and id are new and the failures are below its threshold. */
  predicate Welcome(w: World, c: CallerId, call: Call, id: RunId) {
    && c !in w.callers && ValidCall(call)
    && call.key !in w.tables.byKey && id !in w.tables.runs && w.tables.controller.Active?
    && (call.key.project in w.tables.circuits ==> w.tables.circuits[call.key.project].failures < call.threshold)
  }

  /** It has been admitted and has inserted its run. */
  ghost predicate Opened(w: World, w1: World, c: CallerId, call: Call, id: RunId, admitted: int, created: int) {
    && At(w1, c, call, Attempting(id, 1))
    && w1.callers.Keys == w.callers.Keys + {c} && (forall o :: o in w.callers ==> w1.callers[o] == w.callers[o])
    && w1.tables == w.tables.(runs := w.tables.runs[id := RunRow(call.key, Running, 0, None, created, None)],
                              byKey := w.tables.byKey[call.key := id])
    && Log(w1, call.key.project) == Log(w, call.key.project) + [Admitted(c, admitted, false)]
  }

  lemma OpeningSteps(w: World, c: CallerId, call: Call, i: Input, j: Input, k: Input)
    requires At(w, c, call, Lookup) && call.key !in w.tables.byKey && w.tables.controller.Active?
    requires call.key.project in w.tables.circuits ==> w.tables.circuits[call.key.project].failures < call.threshold
    ensures var w1 := AdvanceCaller(w, c, i);
            c in w1.callers && var w2 := AdvanceCaller(w1, c, j);
            c in w2.callers && AdvanceCaller(w2, c, k) == Goto(Note(w, call.key.project, Admitted(c, k.now, false)), c, Inserting)
  {
    var w1 := AdvanceCaller(w, c, i);
    assert w1 == Goto(w, c, Gate);
    var w2 := AdvanceCaller(w1, c, j);
    assert w2 == Goto(w1, c, Claiming);
    var w3, end := AdvanceCaller(w2, c, k), Goto(Note(w, call.key.project, Admitted(c, k.now, false)), c, Inserting);
    assert w3.callers == end.callers;
    assert w3.history == end.history;
  }

  lemma InsertingSteps(w: World, c: CallerId, call: Call, i: Input, j: Input)
    requires At(w, c, call, Inserting) && call.key !in w.tables.byKey && i.newId !in w.tables.runs
    ensures var w1 := AdvanceCaller(w, c, i);
            var t := w.tables.(runs := w.tables.runs[i.newId := RunRow(call.key, Running, 0, None, i.now, None)],
                               byKey := w.tables.byKey[call.key := i.newId]);
            c in w1.callers && AdvanceCaller(w1, c, j) == Goto(w.(tables := t), c, Attempting(i.newId, 1))
  {
    var w1 := AdvanceCaller(w, c, i);
    assert At(w1, c, call, Fetching);
    assert w1.callers[c := Caller(call, Attempting(i.newId, 1))] == w.callers[c := Caller(call, Attempting(i.newId, 1))];
  }

  lemma OpeningShape(w: World, w1: World, c: CallerId, call: Call, id: RunId, admitted: int, created: int)
    requires c !in w.callers
    requires var w0 := w.(callers := w.callers[c := Caller(call, Lookup)]);
             var w3 := Goto(Note(w0, call.key.project, Admitted(c, admitted, false)), c, Inserting);
             w1 == Goto(w3.(tables := w.tables.(runs := w.tables.runs[id := RunRow(call.key, Running, 0, None, created, None)],
                                                byKey := w.tables.byKey[call.key := id])), c, Attempting(id, 1))
    ensures Opened(w, w1, c, call, id, admitted, created)
  {
  }

  /** The world in which a welcome call stands at its first attempt. */
  lemma CallOpens(w: World, c: CallerId, call: Call, inputs: seq<Input>) returns (w1: World)
    requires |inputs| >= 5 && Welcome(w, c, call, inputs[3].newId)
    ensures Exec(w, [StartCall(c, call)] + Own(c, inputs)) == Exec(w1, Own(c, inputs[5..]))
    ensures Opened(w, w1, c, call, inputs[3].newId, inputs[2].now, inputs[3].now)
  {
    var w0 := Next(w, StartCall(c, call));
    assert w0 == w.(callers := w.callers[c := Caller(call, Lookup)]);
    StartThenOwn(w, c, call, inputs);
    OpeningSteps(w0, c, call, inputs[0], inputs[1], inputs[2]);
    var w3 := Goto(Note(w0, call.key.project, Admitted(c, inputs[2].now, false)), c, Inserting);
    assert At(w3, c, call, Inserting) && w3.tables == w.tables;
    InsertingSteps(w3, c, call, inputs[3], inputs[4]);
    hide Exec, Own, AdvanceCaller, Next, ValidCall;
    ThreeOwnSteps(w0, c, inputs);
    OwnStep(w3, c, inputs[3..]);
    assert inputs[3..][1..] == inputs[4..] && inputs[4..][1..] == inputs[5..];
    OwnStep(AdvanceCaller(w3, c, inputs[3]), c, inputs[4..]);
    w1 := AdvanceCaller(AdvanceCaller(w3, c, inputs[3]), c, inputs[4]);
    OpeningShape(w, w1, c, call, inputs[3].newId, inputs[2].now, inputs[3].now);
  }

  lemma StartThenOwn(w: World, c: CallerId, call: Call, inputs: seq<Input>)
    ensures Exec(w, [StartCall(c, call)] + Own(c, inputs)) == Exec(Next(w, StartCall(c, call)), Own(c, inputs))
  {
    hide Next, Own;
    assert ([StartCall(c, call)] + Own(c, inputs))[1..] == Own(c, inputs);
  }

  lemma ThreeOwnSteps(w: World, c: CallerId, inputs: seq<Input>)
    requires c in w.callers && |inputs| >= 3
    requires var w1 := AdvanceCaller(w, c, inputs[0]);
             c in w1.callers && c in AdvanceCaller(w1, c, inputs[1]).callers
    ensures var w1 := AdvanceCaller(w, c, inputs[0]);
            var w2 := AdvanceCaller(w1, c, inputs[1]);
            Exec(w, Own(c, inputs)) == Exec(AdvanceCaller(w2, c, inputs[2]), Own(c, inputs[3..]))
  {
    hide Exec, Own, AdvanceCaller;
    OwnStep(w, c, inputs);
    var w1 := AdvanceCaller(w, c, inputs[0]);
    OwnStep(w1, c, inputs[1..]);
    assert inputs[1..][1..] == inputs[2..] && inputs[2..][1..] == inputs[3..];
    OwnStep(AdvanceCaller(w1, c, inputs[1]), c, inputs[2..]);
  }

  /**
   What the runner is for. After any run, a new request that meets an ACTIVE controller and a closed
   circuit, and that nobody disturbs, is admitted, inserts its run, calls the executor until an answer is
   neither a failure nor a timeout or no attempt is left, stores every answer as an attempt and the last one
   as its result, records that, and returns the stored row.
   */
  lemma UndisturbedCallCompletes(before: seq<Action>, c: CallerId, call: Call, inputs: seq<Input>, answers: seq<ExecutionResult>)
    requires |inputs| >= 5 && Welcome(Exec(INITIAL, before), c, call, inputs[3].newId)
    requires Answering(inputs[5..], answers) && Ends(answers, 0, call.maxAttempts)
    ensures var w, id := Exec(INITIAL, before), inputs[3].newId;
            var w2 := Exec(INITIAL, before + ([StartCall(c, call)] + Own(c, inputs)));
            var n, p, last := |answers|, call.key.project, answers[|answers| - 1];
            var success := last.classification == Success;
            var row := RunRow(call.key, Finished(last.classification), n, Some(last), inputs[3].now, Some(FinishedAt(inputs)));
            && At(w2, c, call, Returned(id, row))
            && w2.tables.runs == w.tables.runs[id := row]
            && w2.tables.byKey == w.tables.byKey[call.key := id]
            && Of(w2.tables.attempts, id) == AttemptRows(inputs[5..], answers, 0)
            && RowAt(w2.tables, p) == RecordedRow(RowAt(w.tables, p), success, call.threshold, RecordedAt(inputs))
            && w2.tables.controller == w.tables.controller && w2.tables.controlEvents == w.tables.controlEvents
            && Log(w2, p) == Log(w, p) + [Admitted(c, inputs[2].now, false)] + Entries(c, n, Recorded(c, id, success, RecordedAt(inputs)))
  {
    hide *;
    SomeAnswer(answers, 0, call.maxAttempts);
    var w, id := Exec(INITIAL, before), inputs[3].newId;
    var w1 := FirstAttempt(before, c, call, inputs);
    ValidMax(w, c, call, id);
    AttemptsComplete(w1, c, call, id, 0, inputs[5..], answers);
    Lengths(inputs[5..], answers);
    assert FinishedAt(inputs[5..]) == FinishedAt(inputs) && RecordedAt(inputs[5..]) == RecordedAt(inputs) by { SameEnds(inputs); }
    OpenedThenCompleted(w, w1, Exec(INITIAL, before + ([StartCall(c, call)] + Own(c, inputs))), c, call, id, inputs[2].now, inputs[3].now,
                        answers[|answers| - 1], |answers|, FinishedAt(inputs), AttemptRows(inputs[5..], answers, 0), RecordedAt(inputs));
  }

  lemma ValidMax(w: World, c: CallerId, call: Call, id: RunId)
    requires Welcome(w, c, call, id)
    ensures call.maxAttempts <= 3
  {
  }

  lemma SameEnds(inputs: seq<Input>)
    requires |inputs| >= 7
    ensures FinishedAt(inputs[5..]) == FinishedAt(inputs) && RecordedAt(inputs[5..]) == RecordedAt(inputs)
  {
  }

  lemma OpenedThenCompleted(w: World, w1: World, w2: World, c: CallerId, call: Call, id: RunId, admitted: int, created: int,
                            last: ExecutionResult, n: nat, finished: int, rows: map<nat, AttemptRow>, recorded: int)
    requires Opened(w, w1, c, call, id, admitted, created) && id in w1.tables.runs && Of(w.tables.attempts, id) == map[]
    requires Completed(w1, w2, c, call, id, FinalRow(w1.tables.runs[id], last, n, finished), Of(w1.tables.attempts, id) + rows, n, recorded)
    ensures var p, success := call.key.project, last.classification == Success;
            var row := RunRow(call.key, Finished(last.classification), n, Some(last), created, Some(finished));
            && At(w2, c, call, Returned(id, row))
            && w2.tables.runs == w.tables.runs[id := row]
            && w2.tables.byKey == w.tables.byKey[call.key := id]
            && Of(w2.tables.attempts, id) == rows
            && RowAt(w2.tables, p) == RecordedRow(RowAt(w.tables, p), success, call.threshold, recorded)
            && w2.tables.controller == w.tables.controller && w2.tables.controlEvents == w.tables.controlEvents
            && Log(w2, p) == Log(w, p) + [Admitted(c, admitted, false)] + Entries(c, n, Recorded(c, id, success, recorded))
  {
    SameCircuits(w.tables, w1.tables, call.key.project);
    assert map[] + rows == rows;
    hide Log, RowAt, RecordedRow, Entries;
  }

  lemma FirstAttempt(before: seq<Action>, c: CallerId, call: Call, inputs: seq<Input>) returns (w1: World)
    requires |inputs| >= 5 && Welcome(Exec(INITIAL, before), c, call, inputs[3].newId)
    ensures Exec(INITIAL, before + ([StartCall(c, call)] + Own(c, inputs))) == Exec(w1, Own(c, inputs[5..]))
    ensures Opened(Exec(INITIAL, before), w1, c, call, inputs[3].newId, inputs[2].now, inputs[3].now)
    ensures ReadyToAttempt(w1, c, call, inputs[3].newId, 0) && inputs[3].newId in w1.tables.runs
    ensures Of(Exec(INITIAL, before).tables.attempts, inputs[3].newId) == map[]
  {
    var w, id := Exec(INITIAL, before), inputs[3].newId;
    InitialInv();
    ExecKeepsInv(INITIAL, before);
    assert TablesOk(CoreOf(w));
    NoAttemptsYet(CoreOf(w), id);
    ExecConcat(INITIAL, before, [StartCall(c, call)] + Own(c, inputs));
    hide Exec, Own, Inv, TablesOk;
    w1 := CallOpens(w, c, call, inputs);
    hide Log;
    OpenedIsReady(w, w1, c, call, id, inputs[2].now, inputs[3].now);
  }

  lemma NoAttemptsYet(k: Core, id: RunId)
    requires TablesOk(k) && id !in k.runs
    ensures Of(k.attempts, id) == map[]
  {
  }

  lemma OpenedIsReady(w: World, w1: World, c: CallerId, call: Call, id: RunId, admitted: int, created: int)
    requires Opened(w, w1, c, call, id, admitted, created) && Of(w.tables.attempts, id) == map[] && w.tables.controller.Active?
    ensures ReadyToAttempt(w1, c, call, id, 0)
  {
  }

  // ---- requests that are turned away ----

  /** The circuit of the project is open: it has failed too often, and the cooldown runs or a probe is out. */
  predicate CircuitOpen(w: World, call: Call, now: int) {
    call.key.project in w.tables.circuits &&
    var row := w.tables.circuits[call.key.project];
    row.failures >= call.threshold && row.openedAt.Some? && (now - row.openedAt.value < call.cooldown || row.probe)
  }

  predicate KeyIsFree(w: World, key: RequestKey) {
    forall r :: r in w.tables.runs ==> w.tables.runs[r].key != key
  }

  /** The world with one more call, and nothing else changed. */
  function Joined(w: World, c: CallerId, call: Call, pc: Pc): World {
    w.(callers := w.callers[c := Caller(call, pc)])
  }

  predicate Barred(w: World, call: Call, now: int) {
    KeyIsFree(w, call.key) && (!w.tables.controller.Active? || CircuitOpen(w, call, now))
  }

  /**
   After any run, a new request that nobody disturbs is refused, and leaves no trace, if its key has a
   running run, the controller is not ACTIVE or the circuit is open; if its key has a finished run it
   returns that at once, even from a stopped controller.
   */
  lemma TurnedAwayWithoutTrace(before: seq<Action>, c: CallerId, call: Call, inputs: seq<Input>)
    requires c !in Exec(INITIAL, before).callers && |inputs| == 3
    requires 1 <= call.maxAttempts <= 3 && 1 <= call.threshold && ValidIdempotencyKey(call.key.idempotencyKey)
    ensures var w := Exec(INITIAL, before);
            var w2 := Exec(INITIAL, before + ([StartCall(c, call)] + Own(c, inputs)));
            && (forall r :: r in w.tables.runs && w.tables.runs[r].key == call.key ==>
                  w2 == Joined(w, c, call, if w.tables.runs[r].state.Running? then Refused else Returned(r, w.tables.runs[r])))
            && (Barred(w, call, inputs[2].now) ==> w2 == Joined(w, c, call, Refused))
  {
    var w := Exec(INITIAL, before);
    InitialInv();
    ExecKeepsInv(INITIAL, before);
    assert KeysAreUnique(CoreOf(w));
    ExecConcat(INITIAL, before, [StartCall(c, call)] + Own(c, inputs));
    StartThenOwn(w, c, call, inputs);
    var w0 := Next(w, StartCall(c, call));
    assert w0 == Joined(w, c, call, Lookup);
    hide *;
    FirstSteps(w, w0, c, call, inputs[0], inputs[1], inputs[2]);
    ThreeOwnSteps(w0, c, inputs);
    NothingLeft(AdvanceCaller(AdvanceCaller(AdvanceCaller(w0, c, inputs[0]), c, inputs[1]), c, inputs[2]), c, inputs);
  }

  lemma NothingLeft(w: World, c: CallerId, inputs: seq<Input>)
    requires |inputs| == 3
    ensures Exec(w, Own(c, inputs[3..])) == w
  {
    assert Own(c, inputs[3..]) == [];
  }

  lemma FirstSteps(w: World, w0: World, c: CallerId, call: Call, i: Input, j: Input, k: Input)
    requires w0 == Joined(w, c, call, Lookup) && KeysAreUnique(CoreOf(w))
    ensures c in w0.callers
    ensures var w1 := AdvanceCaller(w0, c, i);
            c in w1.callers && var w2 := AdvanceCaller(w1, c, j);
            c in w2.callers && var w3 := AdvanceCaller(w2, c, k);
            && (forall r :: r in w.tables.runs && w.tables.runs[r].key == call.key ==>
                  w3 == Joined(w, c, call, if w.tables.runs[r].state.Running? then Refused else Returned(r, w.tables.runs[r])))
            && (Barred(w, call, k.now) ==> w3 == Joined(w, c, call, Refused))
  {
    if r :| r in w.tables.runs && w.tables.runs[r].key == call.key {
      KnownKeySteps(w, w0, c, call, r, i, j, k);
      hide AdvanceCaller, Joined, CircuitOpen;
      assert KeysAreUnique(CoreOf(w)) && CoreOf(w).runs == w.tables.runs;
    } else {
      FreeKeySteps(w, w0, c, call, i, j, k);
      hide AdvanceCaller, Joined, CircuitOpen;
    }
  }

  lemma KnownKeySteps(w: World, w0: World, c: CallerId, call: Call, r: RunId, i: Input, j: Input, k: Input)
    requires w0 == Joined(w, c, call, Lookup) && KeysAreUnique(CoreOf(w)) && r in w.tables.runs && w.tables.runs[r].key == call.key
    ensures c in w0.callers
    ensures var w1 := AdvanceCaller(w0, c, i);
            c in w1.callers && var w2 := AdvanceCaller(w1, c, j);
            c in w2.callers && AdvanceCaller(w2, c, k)
                               == Joined(w, c, call, if w.tables.runs[r].state.Running? then Refused else Returned(r, w.tables.runs[r]))
  {
    var row := w.tables.runs[r];
    assert CoreOf(w).runs == w.tables.runs && CoreOf(w).byKey == w.tables.byKey;
    assert FindRun(w.tables, call.key) == Some((r, row));
    hide KeysAreUnique, FindRun;
    var w1 := AdvanceCaller(w0, c, i);
    assert w1 == Joined(w, c, call, if row.state.Running? then Refused else Returned(r, row));
    assert AdvanceCaller(w1, c, j) == w1;
  }

  lemma FreeKeySteps(w: World, w0: World, c: CallerId, call: Call, i: Input, j: Input, k: Input)
    requires w0 == Joined(w, c, call, Lookup) && KeyIsFree(w, call.key) && KeysAreUnique(CoreOf(w))
    ensures c in w0.callers
    ensures var w1 := AdvanceCaller(w0, c, i);
            c in w1.callers && var w2 := AdvanceCaller(w1, c, j);
            c in w2.callers && (Barred(w, call, k.now) ==> AdvanceCaller(w2, c, k) == Joined(w, c, call, Refused))
  {
    assert CoreOf(w).runs == w.tables.runs && CoreOf(w).byKey == w.tables.byKey;
    assert FindRun(w.tables, call.key) == None;
    hide KeysAreUnique, FindRun;
    var w1 := AdvanceCaller(w0, c, i);
    assert w1 == Joined(w, c, call, Gate);
    var w2 := AdvanceCaller(w1, c, j);
    assert w2 == Joined(w, c, call, if w.tables.controller.Active? then Claiming else Refused);
  }

  // ---- a stop between admission and attempt ----

  /** The state's name as a blocked attempt spells it. */
  predicate Spells(s: ControllerState, name: string) {
    match s
    case Active => name == "ACTIVE"
    case Draining => name == "DRAINING"
    case Drained => name == "DRAINED"
    case EmergencyStop => name == "EMERGENCY_STOP"
    case Recovering => name == "RECOVERING"
    case Degraded => name == "DEGRADED"
  }

  lemma BlockedStep(w: World, c: CallerId, call: Call, r: RunId, number: nat, input: Input)
    requires At(w, c, call, Attempting(r, number)) && !w.tables.controller.Active?
    ensures var blocked := ExecutionResult(BlockedByController, None, "", "controller state is " + StateName(w.tables.controller), false);
            var w1 := AdvanceCaller(w, c, input);
            && At(w1, c, call, Appending(r, number, blocked)) && w1.tables == w.tables
            && Log(w1, call.key.project) == Log(w, call.key.project)
  {
  }

  /**
   An admitted call that finds the controller not ACTIVE at an attempt executes nothing more: the attempt
   is stored as blocked, naming the state, it is not tried again however many attempts are left, the run
   ends with it, and the circuit counts a failure.
   */
  lemma BlockedAttemptEndsTheRun(w: World, c: CallerId, call: Call, r: RunId, from: nat, inputs: seq<Input>)
    requires ValidCall(call) && At(w, c, call, Attempting(r, from + 1)) && !w.tables.controller.Active? && from < 3
    requires r in w.tables.runs && w.tables.runs[r].state.Running? && (forall n :: n in Of(w.tables.attempts, r) ==> n <= from)
    requires |inputs| == 4
    ensures var w1, p := Exec(w, Own(c, inputs)), call.key.project;
            exists name :: Spells(w.tables.controller, name) &&
              var blocked := ExecutionResult(BlockedByController, None, "", "controller state is " + name, false);
              var row := w.tables.runs[r].(state := Finished(BlockedByController), attemptCount := from + 1, result := Some(blocked),
                                           finishedAt := Some(inputs[2].now));
              && At(w1, c, call, Returned(r, row)) && w1.tables.runs == w.tables.runs[r := row]
              && w1.tables.attempts == w.tables.attempts[r := Of(w.tables.attempts, r)[from + 1 := AttemptRow(blocked, inputs[1].now)]]
              && RowAt(w1.tables, p) == RecordedRow(RowAt(w.tables, p), false, call.threshold, inputs[3].now)
              && Log(w1, p) == Log(w, p) + [Recorded(c, r, false, inputs[3].now)]
  {
    hide *;
    BlockedRun(w, c, call, r, from, inputs);
    NameSpells(w.tables.controller);
  }

  lemma NameSpells(s: ControllerState)
    ensures Spells(s, StateName(s))
  {
  }

  lemma BlockedRun(w: World, c: CallerId, call: Call, r: RunId, from: nat, inputs: seq<Input>)
    requires ValidCall(call) && At(w, c, call, Attempting(r, from + 1)) && !w.tables.controller.Active? && from < 3
    requires r in w.tables.runs && w.tables.runs[r].state.Running? && (forall n :: n in Of(w.tables.attempts, r) ==> n <= from)
    requires |inputs| == 4
    ensures var w1, p := Exec(w, Own(c, inputs)), call.key.project;
            var blocked := ExecutionResult(BlockedByController, None, "", "controller state is " + StateName(w.tables.controller), false);
            var row := w.tables.runs[r].(state := Finished(BlockedByController), attemptCount := from + 1, result := Some(blocked),
                                         finishedAt := Some(inputs[2].now));
            && At(w1, c, call, Returned(r, row)) && w1.tables.runs == w.tables.runs[r := row]
            && w1.tables.attempts == w.tables.attempts[r := Of(w.tables.attempts, r)[from + 1 := AttemptRow(blocked, inputs[1].now)]]
            && RowAt(w1.tables, p) == RecordedRow(RowAt(w.tables, p), false, call.threshold, inputs[3].now)
            && Log(w1, p) == Log(w, p) + [Recorded(c, r, false, inputs[3].now)]
  {
    hide Exec, Own, Log, RowAt, RecordedRow, AdvanceCaller, StateName, Of, ValidCall;
    var p, s := call.key.project, w.tables.controller;
    var blocked := ExecutionResult(BlockedByController, None, "", "controller state is " + StateName(s), false);
    BlockedStep(w, c, call, r, from + 1, inputs[0]);
    OwnStep(w, c, inputs);
    var w1 := AdvanceCaller(w, c, inputs[0]);
    OwnStep(w1, c, inputs[1..]);
    assert inputs[1..][1..] == inputs[2..] && |inputs[2..]| == 2;
    AppendGoesOn(w1, c, call, r, from + 1, blocked, inputs[1]);
    var w2 := AdvanceCaller(w1, c, inputs[1]);
    assert At(w2, c, call, Finishing(r, from + 1, blocked));
    ResultIsRecorded(w2, c, call, r, from + 1, blocked, inputs[2..]);
    SameCircuits(w.tables, w2.tables, p);
  }
}
