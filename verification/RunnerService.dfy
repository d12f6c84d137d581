/**
 The runner and control services in the form the program has: methods over a mutable
 database. Between any two database calls of a method every other caller may take any
 number of steps; each call of the method is one step of `RunnerProtocol`, so all its
 theorems hold of this code.
 */
module RunnerService {
  import opened Common
  import opened TaskTables
  import opened RunnerProtocol
  import opened RunnerOwnership

  /** Whose steps a piece of code performs. */
  datatype Party = Runner(caller: CallerId) | Operator(client: ClientId)

  predicate By(a: Action, party: Party) {
    match a
    case StartCall(c, _) => party == Runner(c)
    case Advance(c, _) => party == Runner(c)
    case Crash(c) => party == Runner(c)
    case StartControl(k, _, _, _) => party == Operator(k)
    case AdvanceControl(k) => party == Operator(k)
  }

  /**
   The runner and control tables, with the trace of steps that produced them. The program's one database
   class also holds the tables of observations; those are in `ObserverStore`.
   */
  class Database {
    var runs: map<RunId, RunRow>
    var byKey: map<RequestKey, RunId>
    var attempts: ByAttempt<AttemptRow>
    var circuits: map<ProjectId, CircuitRow>
    var controller: ControllerState
    var controlEvents: seq<ControlEvent>
    ghost var trace: seq<Action>

    function Contents(): Tables
      reads this
    {
      Tables(runs, byKey, attempts, circuits, controller, controlEvents)
    }

    ghost function Reached(): World
      reads this
    {
      Exec(INITIAL, trace)
    }

    ghost predicate Valid()
      reads this
    {
      Reached().tables == Contents()
    }

    constructor ()
      ensures Valid() && trace == []
    {
      runs, byKey, attempts, circuits := map[], map[], map[], map[];
      controller, controlEvents := Active, [];
      trace := [];
    }

    /** Anyone but `party` takes any number of steps. */
    method Interfere(ghost party: Party)
      requires Valid()
      modifies this
      ensures Valid()
      ensures exists others :: trace == old(trace) + others && forall a :: a in others ==> !By(a, party)
    {
      assert trace == old(trace) + [];
    }

    /** The database call just made was step `a`. */
    ghost method Step(a: Action)
      requires Next(Reached(), a).tables == Contents()
      modifies this`trace
      ensures Valid() && trace == old(trace) + [a]
      ensures Reached() == Next(old(Reached()), a)
    {
      ExecConcat(INITIAL, trace, [a]);
      assert Exec(Reached(), [a]) == Next(Reached(), a);
      trace := trace + [a];
    }

    // ---- task runs ----

    method GetTaskRun(key: RequestKey) returns (found: Option<(RunId, RunRow)>)
      ensures found == FindRun(Contents(), key)
    {
      if key in byKey {
        if byKey[key] in runs { return Some((byKey[key], runs[byKey[key]])); }
      }
      found := None;
    }

    method InsertTaskRun(id: RunId, key: RequestKey, now: int)
      modifies this
      ensures Contents() == InsertRun(old(Contents()), id, key, now) && trace == old(trace)
    {
      if id !in runs && key !in byKey {
        runs := runs[id := RunRow(key, Running, 0, None, now, None)];
        byKey := byKey[key := id];
      }
    }

    method AppendTaskAttempt(run: RunId, number: nat, result: ExecutionResult, now: int) returns (ok: bool)
      modifies this
      ensures trace == old(trace)
      ensures match AppendAttempt(old(Contents()), run, number, result, now)
              case None => !ok && Contents() == old(Contents())
              case Some(t) => ok && Contents() == t
    {
      if number in Of(attempts, run) || run !in runs || number < 1 || number > 3 {
        return false;
      }
      attempts := Put(attempts, run, number, AttemptRow(result, now));
      runs := runs[run := runs[run].(attemptCount := number)];
      ok := true;
    }

    method FinishTaskRun(run: RunId, result: ExecutionResult, now: int) returns (row: Option<RunRow>)
      modifies this
      ensures Contents() == FinishRun(old(Contents()), run, result, now) && trace == old(trace)
      ensures row == if run in runs then Some(runs[run]) else None
    {
      if run !in runs { return None; }
      if runs[run].state.Running? {
        runs := runs[run := runs[run].(state := Finished(result.classification), result := Some(result), finishedAt := Some(now))];
      }
      row := Some(runs[run]);
    }

    // ---- circuits ----

    method ClaimRunnerCircuit(project: ProjectId, threshold: nat, cooldown: nat, now: int) returns (answer: Claim)
      modifies this
      ensures answer == ClaimAnswer(old(Contents()), project, threshold, cooldown, now)
      ensures Contents() == ClaimCircuit(old(Contents()), project, threshold, cooldown, now) && trace == old(trace)
    {
      if project !in circuits { return Granted(false); }
      var row := circuits[project];
      if row.failures < threshold { return Granted(false); }
      if row.openedAt.None? { return Raised; }
      var elapsed := now - row.openedAt.value;
      if elapsed < cooldown || row.probe { return Denied; }
      circuits := circuits[project := row.(probe := true)];
      answer := Granted(true);
    }

    method RecordRunnerSuccess(project: ProjectId)
      modifies this
      ensures Contents() == RecordSuccess(old(Contents()), project) && trace == old(trace)
    {
      circuits := circuits - {project};
    }

    method RecordRunnerFailure(project: ProjectId, threshold: nat, now: int)
      modifies this
      ensures Contents() == RecordFailure(old(Contents()), project, threshold, now) && trace == old(trace)
    {
      var failures := 1;
      if project in circuits { failures := circuits[project].failures + 1; }
      var openedAt := None;
      if failures >= threshold { openedAt := Some(now); }
      circuits := circuits[project := CircuitRow(failures, openedAt, false)];
    }

    // ---- controller state ----

    method TransitionControllerState(from: ControllerState, next: ControllerState, actor: string, reason: string)
      returns (ok: bool)
      modifies this
      ensures trace == old(trace)
      ensures match TransitionController(old(Contents()), from, next, actor, reason)
              case None => !ok && Contents() == old(Contents())
              case Some(t) => ok && Contents() == t
    {
      if controller != from { return false; }
      controlEvents := controlEvents + [ControlEvent(actor, reason, controller, next)];
      controller := next;
      ok := true;
    }
  }

  // ---- what others cannot do to a party ----

  lemma OtherStepLeavesCaller(w: World, a: Action, c: CallerId)
    requires !By(a, Runner(c))
    ensures c in Next(w, a).callers <==> c in w.callers
    ensures c in w.callers ==> Next(w, a).callers[c] == w.callers[c]
  {
    if a.Advance? && a.caller in w.callers {
      match w.callers[a.caller].pc
      case Claiming =>
      case Appending(_, _, _) =>
      case Finishing(_, _, _) =>
      case _ =>
    }
  }

  lemma {:induction false} OthersLeaveCaller(w: World, others: seq<Action>, c: CallerId)
    requires forall a :: a in others ==> !By(a, Runner(c))
    ensures c in Exec(w, others).callers <==> c in w.callers
    ensures c in w.callers ==> Exec(w, others).callers[c] == w.callers[c]
    decreases |others|
  {
    if others != [] {
      OtherStepLeavesCaller(w, others[0], c);
      OthersLeaveCaller(Next(w, others[0]), others[1..], c);
    }
  }

  lemma OtherStepLeavesClient(w: World, a: Action, k: ClientId)
    requires !By(a, Operator(k))
    ensures k in Next(w, a).clients <==> k in w.clients
    ensures k in w.clients ==> Next(w, a).clients[k] == w.clients[k]
  {
    if a.Advance? && a.caller in w.callers {
      match w.callers[a.caller].pc
      case Claiming =>
      case Appending(_, _, _) =>
      case Finishing(_, _, _) =>
      case _ =>
    }
  }

  lemma {:induction false} OthersLeaveClient(w: World, others: seq<Action>, k: ClientId)
    requires forall a :: a in others ==> !By(a, Operator(k))
    ensures k in Exec(w, others).clients <==> k in w.clients
    ensures k in w.clients ==> Exec(w, others).clients[k] == w.clients[k]
    decreases |others|
  {
    if others != [] {
      OtherStepLeavesClient(w, others[0], k);
      OthersLeaveClient(Next(w, others[0]), others[1..], k);
    }
  }

  // ---- TaskRunnerService ----

  datatype Outcome = Answer(row: RunRow) | RunBlocked | RunRaised

  class TaskRunnerService {
    const db: Database

    constructor (db: Database)
      ensures this.db == db
    {
      this.db := db;
    }

    /** The call `me` stands at `pc`, in a database that may have moved on. */
    ghost predicate At(me: CallerId, call: Call, pc: Pc)
      reads this, db
    {
      db.Valid() && me in db.Reached().callers && db.Reached().callers[me] == Caller(call, pc)
    }

    /** Lets the others run; `me` stays where it was. */
    method Yield(ghost me: CallerId, ghost call: Call, ghost pc: Pc)
      requires At(me, call, pc)
      modifies db
      ensures At(me, call, pc) && old(db.trace) <= db.trace
    {
      ghost var before := db.trace;
      db.Interfere(Runner(me));
      ghost var others :| db.trace == before + others && forall a :: a in others ==> !By(a, Runner(me));
      ExecConcat(INITIAL, before, others);
      OthersLeaveCaller(Exec(INITIAL, before), others, me);
    }

    /** `get_task_run`, at the start of a request. */
    method LookUp(ghost me: CallerId, call: Call) returns (found: Option<(RunId, RunRow)>)
      requires At(me, call, Lookup)
      modifies db
      ensures At(me, call, FinishedPc(found, Gate, Refused)) && old(db.trace) <= db.trace
    {
      Yield(me, call, Lookup);
      found := db.GetTaskRun(call.key);
      db.Step(Advance(me, Reads()));
    }

    /** `_require_active`. */
    method RequireActive(ghost me: CallerId, call: Call) returns (active: bool)
      requires At(me, call, Gate)
      modifies db
      ensures At(me, call, if active then Claiming else Refused) && old(db.trace) <= db.trace
    {
      Yield(me, call, Gate);
      active := db.controller.Active?;
      db.Step(Advance(me, Reads()));
    }

    method ClaimCircuit(ghost me: CallerId, call: Call) returns (answer: Claim)
      requires At(me, call, Claiming)
      modifies db
      ensures At(me, call, match answer case Granted(_) => Inserting case Denied => Refused case Raised => Dead)
      ensures old(db.trace) <= db.trace
    {
      Yield(me, call, Claiming);
      var now: int := *;
      answer := db.ClaimRunnerCircuit(call.key.project, call.threshold, call.cooldown, now);
      db.Step(Advance(me, Clock(now)));
    }

    /** `create_task_run`: the insert and the read after it are separate transactions. */
    method CreateTaskRun(ghost me: CallerId, call: Call) returns (found: Option<(RunId, RunRow)>)
      requires At(me, call, Inserting)
      modifies db
      ensures At(me, call, FinishedPc(found, Dead, if found.Some? then Attempting(found.value.0, 1) else Dead))
      ensures old(db.trace) <= db.trace
    {
      Yield(me, call, Inserting);
      var id: nat, now: int := *, *;
      db.InsertTaskRun(id, call.key, now);
      db.Step(Advance(me, Clock(now).(newId := id)));
      Yield(me, call, Fetching);
      found := db.GetTaskRun(call.key);
      db.Step(Advance(me, Reads()));
    }

    /** One attempt up to its result: the gate, and the executor if the gate is open. */
    method Attempt(ghost me: CallerId, call: Call, run: RunId, number: nat) returns (result: ExecutionResult)
      requires At(me, call, Attempting(run, number))
      modifies db
      ensures At(me, call, Appending(run, number, result)) && old(db.trace) <= db.trace
    {
      Yield(me, call, Attempting(run, number));
      var state := db.controller;
      db.Step(Advance(me, Reads()));
      if state != Active {
        result := BlockedResult(state);
      } else {
        result := Execute(me, call, run, number);
      }
    }

    /** The executor may answer anything. */
    method Execute(ghost me: CallerId, call: Call, run: RunId, number: nat) returns (result: ExecutionResult)
      requires At(me, call, Cleared(run, number))
      modifies db
      ensures At(me, call, Appending(run, number, result)) && old(db.trace) <= db.trace
    {
      Yield(me, call, Cleared(run, number));
      db.Step(Advance(me, Reads()));
      Yield(me, call, Executing(run, number));
      result := *;
      db.Step(Advance(me, Reads().(executed := result)));
    }

    method Append(ghost me: CallerId, call: Call, run: RunId, number: nat, result: ExecutionResult) returns (ok: bool)
      requires At(me, call, Appending(run, number, result))
      modifies db
      ensures At(me, call, if !ok then Dead
                           else if Retryable(result) && number < call.maxAttempts then Attempting(run, number + 1)
                           else Finishing(run, number, result))
      ensures old(db.trace) <= db.trace
    {
      Yield(me, call, Appending(run, number, result));
      var now: int := *;
      ok := db.AppendTaskAttempt(run, number, result, now);
      db.Step(Advance(me, Clock(now)));
    }

    method Finish(ghost me: CallerId, call: Call, run: RunId, number: nat, result: ExecutionResult)
      returns (row: Option<RunRow>)
      requires At(me, call, Finishing(run, number, result))
      modifies db
      ensures At(me, call, if row.None? then Dead else Recording(run, result, row.value))
      ensures old(db.trace) <= db.trace
    {
      Yield(me, call, Finishing(run, number, result));
      var now: int := *;
      row := db.FinishTaskRun(run, result, now);
      db.Step(Advance(me, Clock(now)));
    }

    method Record(ghost me: CallerId, call: Call, run: RunId, result: ExecutionResult, ghost row: RunRow)
      requires At(me, call, Recording(run, result, row))
      modifies db
      ensures At(me, call, Returned(run, row)) && old(db.trace) <= db.trace
    {
      Yield(me, call, Recording(run, result, row));
      var now: int := *;
      if result.classification.Success? {
        db.RecordRunnerSuccess(call.key.project);
      } else {
        db.RecordRunnerFailure(call.key.project, call.threshold, now);
      }
      db.Step(Advance(me, Clock(now)));
    }

    /** `_execute_attempts`: leaves the last result, ready to be finished, unless an append raised. */
    method ExecuteAttempts(ghost me: CallerId, call: Call, run: RunId)
      returns (result: ExecutionResult, number: nat, ok: bool)
      requires At(me, call, Attempting(run, 1)) && call.maxAttempts >= 1
      modifies db
      ensures At(me, call, if ok then Finishing(run, number, result) else Dead) && old(db.trace) <= db.trace
    {
      number := 1;
      while true
        invariant 1 <= number <= call.maxAttempts
        invariant At(me, call, Attempting(run, number)) && old(db.trace) <= db.trace
        decreases call.maxAttempts - number
      {
        result := Attempt(me, call, run, number);
        ok := Append(me, call, run, number, result);
        if !ok || !Retryable(result) || number == call.maxAttempts { return; }
        number := number + 1;
      }
    }

    /** Where a call that has answered stands. */
    ghost predicate Ended(me: CallerId, call: Call, outcome: Outcome)
      reads this, db
    {
      match outcome
      case Answer(row) => exists r :: At(me, call, Returned(r, row))
      case RunBlocked => At(me, call, Refused)
      case RunRaised => At(me, call, Dead)
    }

    /** `run` from the granted claim on. */
    method RunAdmitted(ghost me: CallerId, call: Call) returns (outcome: Outcome)
      requires At(me, call, Inserting) && call.maxAttempts >= 1
      modifies db
      ensures Ended(me, call, outcome) && old(db.trace) <= db.trace
    {
      var found := CreateTaskRun(me, call);
      if found.None? { return RunRaised; }
      if !found.value.1.state.Running? { return Answer(found.value.1); }
      var run := found.value.0;
      var result, number, ok := ExecuteAttempts(me, call, run);
      if !ok { return RunRaised; }
      var row := Finish(me, call, run, number, result);
      if row.None? { return RunRaised; }
      Record(me, call, run, result, row.value);
      outcome := Answer(row.value);
    }

    /** `run` from the lookup on. */
    method RunValidated(ghost me: CallerId, call: Call) returns (outcome: Outcome)
      requires At(me, call, Lookup) && call.maxAttempts >= 1
      modifies db
      ensures Ended(me, call, outcome) && old(db.trace) <= db.trace
    {
      var found := LookUp(me, call);
      if found.Some? {
        if found.value.1.state.Running? { return RunBlocked; }
        return Answer(found.value.1);
      }
      var active := RequireActive(me, call);
      if !active { return RunBlocked; }
      var answer := ClaimCircuit(me, call);
      if answer.Denied? { return RunBlocked; }
      if answer.Raised? { return RunRaised; }
      outcome := RunAdmitted(me, call);
    }

    /** `run`: each database call and each executor call in it is one protocol step of caller `me`. */
    method Run(ghost me: CallerId, call: Call) returns (outcome: Outcome)
      requires db.Valid() && me !in db.Reached().callers
      requires 1 <= call.maxAttempts <= 3 && 1 <= call.threshold
      modifies db
      ensures db.Valid() && old(db.trace) <= db.trace
      ensures if ValidIdempotencyKey(call.key.idempotencyKey) then Ended(me, call, outcome)
              else outcome == RunRaised && db.trace == old(db.trace)
    {
      if !ValidIdempotencyKey(call.key.idempotencyKey) { return RunRaised; }
      db.Step(StartCall(me, call));
      outcome := RunValidated(me, call);
    }

    /** What `Run` answers is the stored, finished row of the request. */
    method RunAnswersStoredRow(ghost me: CallerId, call: Call) returns (outcome: Outcome)
      requires db.Valid() && me !in db.Reached().callers
      requires ValidCall(call)
      modifies db
      ensures db.Valid()
      ensures outcome.Answer? ==>
                && outcome.row.state.Finished?
                && exists r :: FindRun(db.Contents(), call.key) == Some((r, outcome.row))
    {
      outcome := Run(me, call);
      if outcome.Answer? {
        ghost var r :| At(me, call, Returned(r, outcome.row));
        ReturnedRowIsStored(db.trace, me);
      }
    }
  }

  /** A step that only reads needs nothing from its environment. */
  ghost function Reads(): Input { Clock(0) }

  ghost function Clock(now: int): Input {
    Input(now, 0, BlockedResult(Active))
  }
}
