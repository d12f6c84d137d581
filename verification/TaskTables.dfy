/**
 The runner and control tables of the database, and each database call on them as one
 transaction: a function from the tables before to the tables after. `None` or `Raised`
 stands for an exception, which leaves the tables as they were.
 */
module TaskTables {
  import opened Common

  type ProjectId = string

  /** Run identifiers are UUIDs; all that matters is that they can be compared. */
  type RunId = nat

  // ---- execution results ----

  datatype Classification = Success | Failed | TimedOut | BlockedByController | PolicyError | InfrastructureError

  datatype ExecutionResult = ExecutionResult(
    classification: Classification,
    exitCode: Option<int>,
    stdout: string,
    stderr: string,
    outputTruncated: bool)

  /** Only a failure or a timeout is tried again. */
  predicate Retryable(result: ExecutionResult) {
    result.classification in {Failed, TimedOut}
  }

  // ---- tables ----

  datatype RequestKey = RequestKey(project: ProjectId, task: string, idempotencyKey: string)

  /** `task_runs.state`: running, or the classification the run finished with. */
  datatype RunState = Running | Finished(classification: Classification)

  datatype RunRow = RunRow(
    key: RequestKey,
    state: RunState,
    attemptCount: nat,
    result: Option<ExecutionResult>,
    createdAt: int,
    finishedAt: Option<int>)

  datatype AttemptRow = AttemptRow(result: ExecutionResult, occurredAt: int)

  datatype CircuitRow = CircuitRow(failures: nat, openedAt: Option<int>, probe: bool)

  datatype ControllerState = Active | Draining | Drained | EmergencyStop | Recovering | Degraded

  datatype ControlEvent = ControlEvent(actor: string, reason: string, previous: ControllerState, next: ControllerState)

  /** Rows keyed by PRIMARY KEY(run_id, attempt_number), grouped by run. */
  type ByAttempt<T> = map<RunId, map<nat, T>>

  function Of<T>(rows: ByAttempt<T>, run: RunId): map<nat, T> {
    if run in rows then rows[run] else map[]
  }

  function Put<T>(rows: ByAttempt<T>, run: RunId, number: nat, row: T): ByAttempt<T> {
    rows[run := Of(rows, run)[number := row]]
  }

  /** `byKey` is the index behind UNIQUE(project_id, task_id, idempotency_key). */
  datatype Tables = Tables(
    runs: map<RunId, RunRow>,
    byKey: map<RequestKey, RunId>,
    attempts: ByAttempt<AttemptRow>,
    circuits: map<ProjectId, CircuitRow>,
    controller: ControllerState,
    controlEvents: seq<ControlEvent>)

  const EMPTY_TABLES := Tables(map[], map[], map[], map[], Active, [])

  // ---- task runs ----

  /** `get_task_run`: the row under a key, with its id. */
  function FindRun(t: Tables, key: RequestKey): Option<(RunId, RunRow)> {
    if key in t.byKey && t.byKey[key] in t.runs then Some((t.byKey[key], t.runs[t.byKey[key]])) else None
  }

  /** The INSERT of `create_task_run`; a constraint violation is swallowed and changes nothing. */
  function InsertRun(t: Tables, id: RunId, key: RequestKey, now: int): Tables {
    if id in t.runs || key in t.byKey then t
    else t.(runs := t.runs[id := RunRow(key, Running, 0, None, now, None)], byKey := t.byKey[key := id])
  }

  /** `append_task_attempt`: primary key, foreign key and CHECK violations raise. */
  function AppendAttempt(t: Tables, run: RunId, number: nat, result: ExecutionResult, now: int): Option<Tables> {
    if number in Of(t.attempts, run) || run !in t.runs || !(1 <= number <= 3) then None
    else
      Some(t.(attempts := Put(t.attempts, run, number, AttemptRow(result, now)),
              runs := t.runs[run := t.runs[run].(attemptCount := number)]))
  }

  /** `finish_task_run`: the update is guarded by `state = 'running'`. */
  function FinishRun(t: Tables, run: RunId, result: ExecutionResult, now: int): Tables {
    if run in t.runs && t.runs[run].state.Running? then
      t.(runs := t.runs[run := t.runs[run].(state := Finished(result.classification),
                                            result := Some(result),
                                            finishedAt := Some(now))])
    else t
  }

  /** The first update that finishes a run wins: a later one changes nothing. */
  lemma FirstFinishWins(t: Tables, run: RunId, first: ExecutionResult, at: int, second: ExecutionResult, later: int)
    ensures var done := FinishRun(t, run, first, at);
            FinishRun(done, run, second, later) == done
  {
  }

  // ---- circuits ----

  datatype Claim = Granted(probe: bool) | Denied | Raised

  /** The answer of `claim_runner_circuit`. Reading a NULL `opened_at` raises. */
  function ClaimAnswer(t: Tables, project: ProjectId, threshold: nat, cooldown: nat, now: int): Claim {
    if project !in t.circuits || t.circuits[project].failures < threshold then Granted(false)
    else match t.circuits[project].openedAt
      case None => Raised
      case Some(openedAt) =>
        if now - openedAt < cooldown || t.circuits[project].probe then Denied else Granted(true)
  }

  function ClaimCircuit(t: Tables, project: ProjectId, threshold: nat, cooldown: nat, now: int): Tables {
    if ClaimAnswer(t, project, threshold, cooldown, now) == Granted(true) && project in t.circuits then
      t.(circuits := t.circuits[project := t.circuits[project].(probe := true)])
    else t
  }

  function RecordSuccess(t: Tables, project: ProjectId): Tables {
    t.(circuits := t.circuits - {project})
  }

  function RecordFailure(t: Tables, project: ProjectId, threshold: nat, now: int): Tables {
    var failures := if project in t.circuits then t.circuits[project].failures + 1 else 1;
    t.(circuits := t.circuits[project := CircuitRow(failures, if failures >= threshold then Some(now) else None, false)])
  }

  // ---- controller state ----

  /** `transition_controller_state` with one allowed origin: a compare-and-set that also logs the edge. */
  function TransitionController(t: Tables, from: ControllerState, next: ControllerState, actor: string, reason: string)
    : Option<Tables>
  {
    if t.controller != from then None
    else Some(t.(controller := next, controlEvents := t.controlEvents + [ControlEvent(actor, reason, from, next)]))
  }
}
