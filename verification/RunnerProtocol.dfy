/**
 The controlled runner as a small-step system. Any number of `run` calls and control
 requests interleave at the granularity of one database call or one executor call, and
 a call may die before any of its steps. No lock orders them: only the keys and the
 guarded updates of `TaskTables` do.
 */
module RunnerProtocol {
  import opened Common
  import opened TaskTables

  type CallerId = nat
  type ClientId = nat

  // ---- callers of TaskRunnerService.run ----

  /** The validated parts of a task template that `run` reads, and the request key. */
  datatype Call = Call(key: RequestKey, maxAttempts: nat, threshold: nat, cooldown: nat)

  predicate KeyStart(c: char) { 'A' <= c <= 'Z' || 'a' <= c <= 'z' || '0' <= c <= '9' }

  predicate KeyChar(c: char) { KeyStart(c) || c in {'.', '_', ':', '-'} }

  predicate ValidIdempotencyKey(k: string) {
    1 <= |k| <= 128 && KeyStart(k[0]) && forall i :: 1 <= i < |k| ==> KeyChar(k[i])
  }

  /** A key is valid if it has 1 to 128 characters, begins with an ASCII letter or digit and goes on with these or one of `.`, `_`, `:`, `-`. */
  lemma ValidKeysAreThese(k: string)
    ensures ValidIdempotencyKey(k) <==>
              && 0 < |k| < 129
              && forall i :: 0 <= i < |k| ==>
                   var n := k[i] as int;
                   48 <= n <= 57 || 65 <= n <= 90 || 97 <= n <= 122 || (i > 0 && (n == 46 || n == 95 || n == 58 || n == 45))
  {
  }

  predicate ValidCall(call: Call) {
    1 <= call.maxAttempts <= 3 && 1 <= call.threshold && ValidIdempotencyKey(call.key.idempotencyKey)
  }

  /** Where a call stands: each value names the database or executor call that comes next. */
  datatype Pc =
    | Lookup
    | Gate
    | Claiming
    | Inserting
    | Fetching
    | Attempting(run: RunId, number: nat)
    | Cleared(run: RunId, number: nat)
    | Executing(run: RunId, number: nat)
    | Appending(run: RunId, number: nat, result: ExecutionResult)
    | Finishing(run: RunId, number: nat, result: ExecutionResult)
    | Recording(run: RunId, result: ExecutionResult, row: RunRow)
    | Returned(run: RunId, row: RunRow)
    | Refused
    | Dead

  datatype Caller = Caller(call: Call, pc: Pc)

  // ---- clients of ControlService ----

  datatype ControlOp = Drain | Stop | ClearStop | CompleteRecovery

  datatype ClientPc =
    | Reading
    | Committing(from: ControllerState, next: ControllerState)
    | Answered(state: ControllerState)
    | Rejected

  datatype Client = Client(op: ControlOp, actor: string, reason: string, pc: ClientPc)

  function Legal(s: ControllerState): set<ControllerState> {
    match s
    case Active => {Draining, EmergencyStop, Degraded}
    case Draining => {Drained, EmergencyStop, Degraded}
    case Drained => {Recovering, EmergencyStop}
    case EmergencyStop => {Recovering}
    case Recovering => {Active, Draining, Drained, EmergencyStop, Degraded}
    case Degraded => {Recovering, Draining, EmergencyStop}
  }

  // ---- stripping ----

  /** What `str.strip` removes. */
  predicate IsSpace(c: char) {
    || c in {'\t', '\n', '\U{000B}', '\U{000C}', '\r', ' ', '\U{0085}', '\U{00A0}', '\U{1680}', '\U{2028}', '\U{2029}', '\U{202F}',
             '\U{205F}', '\U{3000}'}
    || '\U{001C}' <= c <= '\U{001F}' || '\U{2000}' <= c <= '\U{200A}'
  }

  /** `s.strip()`. */
  function Stripped(s: string): string
    decreases |s|
  {
    if s == "" then ""
    else if IsSpace(s[0]) then Stripped(s[1..])
    else if IsSpace(s[|s| - 1]) then Stripped(s[..|s| - 1])
    else s
  }

  /** The blanks are those with these code points, and no others. */
  lemma BlanksAreThese(c: char)
    ensures var n := c as int;
            IsSpace(c) <==> 9 <= n <= 13 || 28 <= n <= 32 || n == 133 || n == 160 || n == 5760 || 8192 <= n <= 8202
                            || n == 8232 || n == 8233 || n == 8239 || n == 8287 || n == 12288
  {
  }

  lemma {:induction false} StrippedToNothing(s: string)
    ensures Stripped(s) == "" <==> forall i :: 0 <= i < |s| ==> IsSpace(s[i])
    decreases |s|
  {
    hide IsSpace;
    if s != "" {
      if IsSpace(s[0]) {
        StrippedToNothing(s[1..]);
        assert forall i :: 0 < i < |s| ==> s[i] == s[1..][i - 1];
      } else if IsSpace(s[|s| - 1]) {
        StrippedToNothing(s[..|s| - 1]);
        assert s[..|s| - 1][0] == s[0];
      }
    }
  }

  predicate Blank(s: string) { forall i :: 0 <= i < |s| ==> IsSpace(s[i]) }

  /** What is left of a text when blanks, and nothing but blanks, are taken off both ends. */
  ghost predicate IsTrimmed(t: string, s: string) {
    exists before: string, after: string :: TrimmedBy(before, t, after, s)
  }

  predicate TrimmedBy(before: string, t: string, after: string, s: string) {
    s == before + t + after && Blank(before) && Blank(after)
  }

  lemma TrimmedAfterBlank(c: char, t: string, s: string)
    requires IsSpace(c) && IsTrimmed(t, s)
    ensures IsTrimmed(t, [c] + s) && IsTrimmed(t, s + [c])
  {
    hide IsSpace;
    var before: string, after: string :| TrimmedBy(before, t, after, s);
    assert [c] + s == ([c] + before) + t + after && s + [c] == before + t + (after + [c]);
    assert TrimmedBy([c] + before, t, after, [c] + s) && TrimmedBy(before, t, after + [c], s + [c]);
  }

  lemma {:induction false} StrippedIsTrimmed(s: string)
    ensures IsTrimmed(Stripped(s), s)
    decreases |s|
  {
    hide IsSpace, IsTrimmed;
    if s != "" && IsSpace(s[0]) {
      StrippedIsTrimmed(s[1..]);
      TrimmedAfterBlank(s[0], Stripped(s), s[1..]);
      assert s == [s[0]] + s[1..];
    } else if s != "" && IsSpace(s[|s| - 1]) {
      StrippedIsTrimmed(s[..|s| - 1]);
      TrimmedAfterBlank(s[|s| - 1], Stripped(s), s[..|s| - 1]);
      assert s == s[..|s| - 1] + [s[|s| - 1]];
    } else {
      WholeIsTrimmed(s);
    }
  }

  lemma WholeIsTrimmed(s: string)
    ensures IsTrimmed(s, s)
  {
    assert TrimmedBy("", s, "", s);
  }

  lemma {:induction false} StrippedEnds(s: string)
    ensures Stripped(s) != "" ==> !IsSpace(Stripped(s)[0]) && !IsSpace(Stripped(s)[|Stripped(s)| - 1])
    decreases |s|
  {
    hide IsSpace;
    if s != "" {
      if IsSpace(s[0]) { StrippedEnds(s[1..]); } else if IsSpace(s[|s| - 1]) { StrippedEnds(s[..|s| - 1]); }
    }
  }

  /** Only blanks are taken off, at both ends and as many as there are: nothing is left exactly of blanks, and what is left has no blank ends. */
  lemma StrippedHasNoBlankEnds(s: string)
    ensures Stripped(s) == "" <==> forall i :: 0 <= i < |s| ==> IsSpace(s[i])
    ensures Stripped(s) != "" ==> !IsSpace(Stripped(s)[0]) && !IsSpace(Stripped(s)[|Stripped(s)| - 1])
    ensures IsTrimmed(Stripped(s), s)
  {
    hide *;
    StrippedToNothing(s);
    StrippedEnds(s);
    StrippedIsTrimmed(s);
  }

  // ---- worlds ----

  /** What the circuit of one project has seen. */
  datatype CircuitEntry =
    | Admitted(caller: CallerId, at: int, probe: bool)
    | Started(caller: CallerId)
    | Recorded(caller: CallerId, run: RunId, success: bool, at: int)

  /** Auxiliary history: who wrote what. No step reads it. */
  datatype History = History(
    attemptBy: ByAttempt<CallerId>,
    finishedBy: map<RunId, CallerId>,
    circuitLog: map<ProjectId, seq<CircuitEntry>>,
    controlOps: seq<ControlOp>)

  datatype World = World(
    tables: Tables,
    callers: map<CallerId, Caller>,
    clients: map<ClientId, Client>,
    history: History)

  const INITIAL := World(EMPTY_TABLES, map[], map[], History(map[], map[], map[], []))

  function Log(w: World, project: ProjectId): seq<CircuitEntry> {
    if project in w.history.circuitLog then w.history.circuitLog[project] else []
  }

  function Note(w: World, project: ProjectId, entry: CircuitEntry): World {
    w.(history := w.history.(circuitLog := w.history.circuitLog[project := Log(w, project) + [entry]]))
  }

  function Goto(w: World, c: CallerId, pc: Pc): World
    requires c in w.callers
  {
    w.(callers := w.callers[c := w.callers[c].(pc := pc)])
  }

  function StateName(s: ControllerState): string {
    match s
    case Active => "ACTIVE"
    case Draining => "DRAINING"
    case Drained => "DRAINED"
    case EmergencyStop => "EMERGENCY_STOP"
    case Recovering => "RECOVERING"
    case Degraded => "DEGRADED"
  }

  /** What `_execute_attempts` stores instead of executing when the controller is not ACTIVE. */
  function BlockedResult(s: ControllerState): ExecutionResult {
    ExecutionResult(BlockedByController, None, "", "controller state is " + StateName(s), false)
  }

  // ---- steps ----

  /** What the environment supplies to a step: the clock, a new UUID and the executor's answer. */
  datatype Input = Input(now: int, newId: RunId, executed: ExecutionResult)

  datatype Action =
    | StartCall(caller: CallerId, call: Call)
    | Advance(caller: CallerId, input: Input)
    | Crash(caller: CallerId)
    | StartControl(client: ClientId, op: ControlOp, actor: string, reason: string)
    | AdvanceControl(client: ClientId)

  function FinishedPc(found: Option<(RunId, RunRow)>, absent: Pc, running: Pc): Pc {
    match found
    case None => absent
    case Some((id, row)) => if row.state.Running? then running else Returned(id, row)
  }

  /** The next database or executor call of caller `c`. */
  function AdvanceCaller(w: World, c: CallerId, input: Input): World
    requires c in w.callers
  {
    var t := w.tables;
    var call := w.callers[c].call;
    var project := call.key.project;
    match w.callers[c].pc
    case Lookup =>
      Goto(w, c, FinishedPc(FindRun(t, call.key), Gate, Refused))
    case Gate =>
      Goto(w, c, if t.controller.Active? then Claiming else Refused)
    case Claiming =>
      (match ClaimAnswer(t, project, call.threshold, call.cooldown, input.now)
       case Denied => Goto(w, c, Refused)
       case Raised => Goto(w, c, Dead)
       case Granted(probe) =>
         var w1 := w.(tables := ClaimCircuit(t, project, call.threshold, call.cooldown, input.now));
         Goto(Note(w1, project, Admitted(c, input.now, probe)), c, Inserting))
    case Inserting =>
      Goto(w.(tables := InsertRun(t, input.newId, call.key, input.now)), c, Fetching)
    case Fetching =>
      var found := FindRun(t, call.key);
      Goto(w, c, FinishedPc(found, Dead, if found.Some? then Attempting(found.value.0, 1) else Dead))
    case Attempting(run, number) =>
      Goto(w, c, if t.controller.Active? then Cleared(run, number)
                 else Appending(run, number, BlockedResult(t.controller)))
    case Cleared(run, number) =>
      Goto(Note(w, project, Started(c)), c, Executing(run, number))
    case Executing(run, number) =>
      Goto(w, c, Appending(run, number, input.executed))
    case Appending(run, number, result) =>
      (match AppendAttempt(t, run, number, result, input.now)
       case None => Goto(w, c, Dead)
       case Some(t1) =>
         var w1 := w.(tables := t1, history := w.history.(attemptBy := Put(w.history.attemptBy, run, number, c)));
         Goto(w1, c, if Retryable(result) && number < call.maxAttempts then Attempting(run, number + 1)
                     else Finishing(run, number, result)))
    case Finishing(run, number, result) =>
      if run !in t.runs then Goto(w, c, Dead)
      else
        var t1 := FinishRun(t, run, result, input.now);
        var w1 := w.(tables := t1,
                     history := if t.runs[run].state.Running?
                                then w.history.(finishedBy := w.history.finishedBy[run := c]) else w.history);
        Goto(w1, c, Recording(run, result, t1.runs[run]))
    case Recording(run, result, row) =>
      var success := result.classification.Success?;
      var t1 := if success then RecordSuccess(t, project) else RecordFailure(t, project, call.threshold, input.now);
      Goto(Note(w.(tables := t1), project, Recorded(c, run, success, input.now)), c, Returned(run, row))
    case Returned(_, _) => w
    case Refused => w
    case Dead => w
  }

  function GotoClient(w: World, k: ClientId, pc: ClientPc): World
    requires k in w.clients
  {
    w.(clients := w.clients[k := w.clients[k].(pc := pc)])
  }

  /** `ControlService._transition` refuses an edge outside the table before it touches the database. */
  function ToCommit(from: ControllerState, next: ControllerState): ClientPc {
    if next in Legal(from) then Committing(from, next) else Rejected
  }

  /** What a control request decides after reading the state. */
  function AfterReading(op: ControlOp, s: ControllerState): ClientPc {
    match op
    case Drain =>
      if s == Drained then Answered(s)
      else if s == EmergencyStop then Rejected
      else if s != Draining then ToCommit(s, Draining)
      else ToCommit(Draining, Drained)
    case Stop => if s == EmergencyStop then Answered(s) else ToCommit(s, EmergencyStop)
    case ClearStop => if s != EmergencyStop then Rejected else ToCommit(EmergencyStop, Recovering)
    case CompleteRecovery => if s != Recovering then Rejected else ToCommit(Recovering, Active)
  }

  /** What it does after a commit: a drain goes on to its second transaction. */
  function AfterCommit(op: ControlOp, next: ControllerState): ClientPc {
    if op == Drain && next == Draining then ToCommit(Draining, Drained) else Answered(next)
  }

  function AdvanceClient(w: World, k: ClientId): World
    requires k in w.clients
  {
    var client := w.clients[k];
    match client.pc
    case Reading => GotoClient(w, k, AfterReading(client.op, w.tables.controller))
    case Committing(from, next) =>
      (match TransitionController(w.tables, from, next, Stripped(client.actor), Stripped(client.reason))
       case None => GotoClient(w, k, Rejected)
       case Some(t1) =>
         var w1 := w.(tables := t1, history := w.history.(controlOps := w.history.controlOps + [client.op]));
         GotoClient(w1, k, AfterCommit(client.op, next)))
    case Answered(_) => w
    case Rejected => w
  }

  /** One step; an action that does not apply changes nothing. */
  function Next(w: World, a: Action): World {
    match a
    case StartCall(c, call) =>
      if c in w.callers || !ValidCall(call) then w
      else w.(callers := w.callers[c := Caller(call, Lookup)])
    case Advance(c, input) => if c in w.callers then AdvanceCaller(w, c, input) else w
    case Crash(c) => if c in w.callers && !w.callers[c].pc.Returned? then Goto(w, c, Dead) else w
    case StartControl(k, op, actor, reason) =>
      if k in w.clients || Stripped(actor) == "" || Stripped(reason) == "" then w
      else w.(clients := w.clients[k := Client(op, actor, reason, Reading)])
    case AdvanceControl(k) => if k in w.clients then AdvanceClient(w, k) else w
  }

  /** A whole run of the system. */
  function Exec(w: World, actions: seq<Action>): World
    decreases |actions|
  {
    if actions == [] then w else Exec(Next(w, actions[0]), actions[1..])
  }

  lemma {:induction false} ExecConcat(w: World, first: seq<Action>, second: seq<Action>)
    ensures Exec(w, first + second) == Exec(Exec(w, first), second)
    decreases |first|
  {
    if first == [] {
      assert first + second == second;
    } else {
      assert (first + second)[0] == first[0];
      assert (first + second)[1..] == first[1..] + second;
      ExecConcat(Next(w, first[0]), first[1..], second);
    }
  }

  lemma ExecSnoc(w: World, actions: seq<Action>, a: Action)
    ensures Exec(w, actions + [a]) == Next(Exec(w, actions), a)
  {
    ExecConcat(w, actions, [a]);
    assert Exec(Exec(w, actions), [a]) == Exec(Next(Exec(w, actions), a), [a][1..]);
  }

  /** A call takes its next steps undisturbed. */
  function Steps(c: CallerId, input: Input, n: nat): seq<Action> {
    if n == 0 then [] else [Advance(c, input)] + Steps(c, input, n - 1)
  }

  lemma ExecSteps(w: World, c: CallerId, input: Input, n: nat)
    requires c in w.callers && n > 0
    ensures Exec(w, Steps(c, input, n)) == Exec(AdvanceCaller(w, c, input), Steps(c, input, n - 1))
  {
    hide AdvanceCaller;
    assert Steps(c, input, n)[1..] == Steps(c, input, n - 1);
  }
}
