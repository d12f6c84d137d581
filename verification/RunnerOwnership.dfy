/**
 Idempotency and ownership of task runs: what keeps a run's record consistent when several
 calls race on one key, and when any call may die anywhere.
 */
module RunnerOwnership {
  import opened Common
  import opened TaskTables
  import opened RunnerProtocol

  // ---- the invariant ----

  /** The part of a world that ownership is about. */
  datatype Core = Core(
    runs: map<RunId, RunRow>,
    byKey: map<RequestKey, RunId>,
    attempts: ByAttempt<AttemptRow>,
    attemptBy: ByAttempt<CallerId>,
    finishedBy: map<RunId, CallerId>)

  function CoreOf(w: World): Core {
    Core(w.tables.runs, w.tables.byKey, w.tables.attempts, w.history.attemptBy, w.history.finishedBy)
  }

  ghost predicate KeysAreUnique(k: Core) {
    && (forall r :: r in k.runs ==> k.runs[r].key in k.byKey && k.byKey[k.runs[r].key] == r)
    && (forall q :: q in k.byKey ==> k.byKey[q] in k.runs && k.runs[k.byKey[q]].key == q)
  }

  /** `c` wrote the first attempt of `r`. */
  predicate Owns(k: Core, c: CallerId, r: RunId) {
    1 in Of(k.attemptBy, r) && Of(k.attemptBy, r)[1] == c
  }

  /** A finished row repeats its last attempt; a running one holds no result yet. */
  predicate StateAgrees(k: Core, r: RunId)
    requires r in k.runs
  {
    var row := k.runs[r];
    match row.state
    case Running => row.result == None && row.finishedAt == None && r !in k.finishedBy
    case Finished(classification) =>
      && row.attemptCount in Of(k.attempts, r)
      && row.result == Some(Of(k.attempts, r)[row.attemptCount].result)
      && row.result.value.classification == classification
      && r in k.finishedBy
      && Owns(k, k.finishedBy[r], r)
  }

  /** The attempts of `r` are exactly 1..attempt_count, by one caller, and all but the last were retryable. */
  ghost predicate AttemptsAgree(k: Core, r: RunId)
    requires r in k.runs
  {
    var count := k.runs[r].attemptCount;
    && count <= 3
    && (forall n: nat :: n in Of(k.attempts, r) <==> 1 <= n <= count)
    && (forall n: nat :: 1 <= n < count ==> n in Of(k.attempts, r) && Retryable(Of(k.attempts, r)[n].result))
    && (forall n: nat :: n in Of(k.attemptBy, r) <==> 1 <= n <= count)
    && (forall n: nat :: 1 <= n <= count ==> n in Of(k.attemptBy, r) && Owns(k, Of(k.attemptBy, r)[n], r))
  }

  ghost predicate RowOk(k: Core, r: RunId) {
    r in k.runs && AttemptsAgree(k, r) && StateAgrees(k, r)
  }

  ghost predicate TablesOk(k: Core) {
    && KeysAreUnique(k)
    && (forall r :: r in k.runs ==> RowOk(k, r))
    && k.attempts.Keys <= k.runs.Keys && k.attemptBy.Keys <= k.runs.Keys
    && k.finishedBy.Keys <= k.runs.Keys
  }

  /** A call about to write attempt `number`: past the first it owns the run, which still waits for it. */
  predicate Working(k: Core, c: CallerId, call: Call, r: RunId, number: nat) {
    && r in k.runs
    && k.runs[r].key == call.key
    && 1 <= number <= call.maxAttempts
    && (number > 1 ==>
          && k.runs[r].state.Running?
          && k.runs[r].attemptCount == number - 1
          && Owns(k, c, r)
          && number - 1 in Of(k.attempts, r)
          && Retryable(Of(k.attempts, r)[number - 1].result))
  }

  predicate CallerOk(k: Core, c: CallerId, caller: Caller) {
    && ValidCall(caller.call)
    && match caller.pc
       case Attempting(r, n) => Working(k, c, caller.call, r, n)
       case Cleared(r, n) => Working(k, c, caller.call, r, n)
       case Executing(r, n) => Working(k, c, caller.call, r, n)
       case Appending(r, n, _) => Working(k, c, caller.call, r, n)
       case Finishing(r, n, result) =>
         && r in k.runs && k.runs[r].key == caller.call.key && k.runs[r].state.Running?
         && k.runs[r].attemptCount == n && Owns(k, c, r)
         && 1 <= n <= caller.call.maxAttempts
         && n in Of(k.attempts, r) && Of(k.attempts, r)[n].result == result
         && (Retryable(result) ==> n == caller.call.maxAttempts)
       case Recording(r, result, row) =>
         && r in k.runs && k.runs[r] == row && row.key == caller.call.key && row.state.Finished?
         && row.result == Some(result) && Owns(k, c, r)
       case Returned(r, row) => r in k.runs && k.runs[r] == row && row.key == caller.call.key && row.state.Finished?
       case _ => true
  }

  ghost predicate CallersOk(w: World) {
    forall c :: c in w.callers ==> CallerOk(CoreOf(w), c, w.callers[c])
  }

  ghost predicate Inv(w: World) {
    TablesOk(CoreOf(w)) && CallersOk(w)
  }

  // ---- each write keeps it ----

  /** `k1` knows of run `r` exactly what `k` does. */
  predicate SameRun(k: Core, k1: Core, r: RunId) {
    && r in k.runs && r in k1.runs && k1.runs[r] == k.runs[r]
    && (r in k1.finishedBy <==> r in k.finishedBy)
    && (r in k.finishedBy ==> k1.finishedBy[r] == k.finishedBy[r])
    && Of(k1.attempts, r) == Of(k.attempts, r)
    && Of(k1.attemptBy, r) == Of(k.attemptBy, r)
  }

  lemma SameRunStaysOk(k: Core, k1: Core, r: RunId)
    requires SameRun(k, k1, r) && RowOk(k, r)
    ensures RowOk(k1, r)
  {
  }

  lemma SameKeysStayUnique(k: Core, k1: Core)
    requires KeysAreUnique(k) && k1.byKey == k.byKey && k1.runs.Keys == k.runs.Keys
    requires forall r :: r in k.runs ==> k1.runs[r].key == k.runs[r].key
    ensures KeysAreUnique(k1)
  {
  }

  /** The core after a new running row `id` was inserted under `key`. */
  function InsertedCore(k: Core, id: RunId, key: RequestKey, now: int): Core {
    k.(runs := k.runs[id := RunRow(key, Running, 0, None, now, None)], byKey := k.byKey[key := id])
  }

  lemma InsertKeepsTables(k: Core, id: RunId, key: RequestKey, now: int)
    requires TablesOk(k) && id !in k.runs && key !in k.byKey
    ensures TablesOk(InsertedCore(k, id, key, now))
  {
    var k1 := InsertedCore(k, id, key, now);
    forall r | r in k1.runs
      ensures RowOk(k1, r)
    {
      if r != id { SameRunStaysOk(k, k1, r); }
    }
  }

  lemma InsertKeepsCaller(k: Core, id: RunId, key: RequestKey, now: int, c: CallerId, caller: Caller)
    requires id !in k.runs && CallerOk(k, c, caller)
    ensures CallerOk(InsertedCore(k, id, key, now), c, caller)
  {
  }

  /** The core after caller `c` appended attempt `n` of run `r`. */
  function Appended(k: Core, c: CallerId, r: RunId, n: nat, result: ExecutionResult, now: int): Core
    requires r in k.runs
  {
    k.(attempts := Put(k.attempts, r, n, AttemptRow(result, now)),
       runs := k.runs[r := k.runs[r].(attemptCount := n)],
       attemptBy := Put(k.attemptBy, r, n, c))
  }

  /** An append that the primary key lets through always adds the attempt after the last one, to a running run. */
  lemma AppendExtendsRunningRun(k: Core, c: CallerId, call: Call, r: RunId, n: nat)
    requires RowOk(k, r) && Working(k, c, call, r, n) && n !in Of(k.attempts, r)
    ensures k.runs[r].attemptCount == n - 1 && k.runs[r].state.Running?
    ensures n > 1 ==> Owns(k, c, r)
  {
  }

  lemma AppendKeepsRow(k: Core, c: CallerId, call: Call, r: RunId, n: nat, result: ExecutionResult, now: int)
    requires RowOk(k, r) && Working(k, c, call, r, n) && n !in Of(k.attempts, r) && n <= 3
    ensures RowOk(Appended(k, c, r, n, result, now), r)
  {
    AppendExtendsRunningRun(k, c, call, r, n);
    var k1 := Appended(k, c, r, n, result, now);
    assert Of(k1.attempts, r) == Of(k.attempts, r)[n := AttemptRow(result, now)];
    assert Of(k1.attemptBy, r) == Of(k.attemptBy, r)[n := c];
    assert AttemptsAgree(k1, r);
  }

  lemma AppendKeepsOtherRow(k: Core, c: CallerId, r: RunId, n: nat, result: ExecutionResult, now: int, other: RunId)
    requires r in k.runs && RowOk(k, other) && other != r
    ensures RowOk(Appended(k, c, r, n, result, now), other)
  {
    SameRunStaysOk(k, Appended(k, c, r, n, result, now), other);
  }

  lemma AppendKeepsTables(k: Core, c: CallerId, call: Call, r: RunId, n: nat, result: ExecutionResult, now: int)
    requires TablesOk(k) && Working(k, c, call, r, n) && n !in Of(k.attempts, r) && n <= 3
    ensures TablesOk(Appended(k, c, r, n, result, now))
  {
    var k1 := Appended(k, c, r, n, result, now);
    assert KeysAreUnique(k1) by { SameKeysStayUnique(k, k1); }
    forall r1 | r1 in k1.runs
      ensures RowOk(k1, r1)
    {
      if r1 == r { AppendKeepsRow(k, c, call, r, n, result, now); }
      else { AppendKeepsOtherRow(k, c, r, n, result, now, r1); }
    }
  }

  lemma AppendKeepsOthers(k: Core, c: CallerId, call: Call, r: RunId, n: nat, result: ExecutionResult, now: int,
                          other: CallerId, caller: Caller)
    requires RowOk(k, r) && Working(k, c, call, r, n) && n !in Of(k.attempts, r)
    requires other != c && CallerOk(k, other, caller)
    ensures CallerOk(Appended(k, c, r, n, result, now), other, caller)
  {
    AppendExtendsRunningRun(k, c, call, r, n);
  }

  /** The core after caller `c` finished the running run `r`. */
  function FinishedCore(k: Core, c: CallerId, r: RunId, result: ExecutionResult, now: int): Core
    requires r in k.runs
  {
    k.(runs := k.runs[r := k.runs[r].(state := Finished(result.classification), result := Some(result), finishedAt := Some(now))],
       finishedBy := k.finishedBy[r := c])
  }

  lemma FinishKeepsRow(k: Core, c: CallerId, caller: Caller, r: RunId, n: nat, result: ExecutionResult, now: int)
    requires RowOk(k, r) && CallerOk(k, c, caller) && caller.pc == Finishing(r, n, result)
    ensures RowOk(FinishedCore(k, c, r, result, now), r)
  {
  }

  lemma FinishKeepsOtherRow(k: Core, c: CallerId, r: RunId, result: ExecutionResult, now: int, other: RunId)
    requires r in k.runs && RowOk(k, other) && other != r
    ensures RowOk(FinishedCore(k, c, r, result, now), other)
  {
    SameRunStaysOk(k, FinishedCore(k, c, r, result, now), other);
  }

  lemma FinishKeepsTables(k: Core, c: CallerId, caller: Caller, r: RunId, n: nat, result: ExecutionResult, now: int)
    requires TablesOk(k) && CallerOk(k, c, caller) && caller.pc == Finishing(r, n, result)
    ensures TablesOk(FinishedCore(k, c, r, result, now))
  {
    var k1 := FinishedCore(k, c, r, result, now);
    assert KeysAreUnique(k1) by { SameKeysStayUnique(k, k1); }
    forall r1 | r1 in k1.runs
      ensures RowOk(k1, r1)
    {
      if r1 == r { FinishKeepsRow(k, c, caller, r, n, result, now); }
      else { FinishKeepsOtherRow(k, c, r, result, now, r1); }
    }
  }

  lemma FinishKeepsOthers(k: Core, c: CallerId, caller: Caller, r: RunId, n: nat, result: ExecutionResult, now: int,
                          other: CallerId, otherCaller: Caller)
    requires RowOk(k, r) && CallerOk(k, c, caller) && caller.pc == Finishing(r, n, result)
    requires other != c && CallerOk(k, other, otherCaller)
    ensures CallerOk(FinishedCore(k, c, r, result, now), other, otherCaller)
  {
  }

  // ---- every step keeps it ----

  /** A caller that found a row through the index found the one row with its key. */
  lemma FoundRow(k: Core, t: Tables, key: RequestKey)
    requires TablesOk(k) && t.runs == k.runs && t.byKey == k.byKey
    ensures match FindRun(t, key)
            case None => forall r :: r in t.runs ==> t.runs[r].key != key
            case Some((r, row)) => r in t.runs && t.runs[r] == row && row.key == key
  {
  }

  /** Only `c` moved, and every other call is still in order. */
  lemma OneCallerMoved(w: World, w1: World, c: CallerId)
    requires c in w.callers && c in w1.callers && w1.callers == w.callers[c := w1.callers[c]]
    requires CallerOk(CoreOf(w1), c, w1.callers[c])
    requires forall o :: o in w.callers && o != c ==> CallerOk(CoreOf(w1), o, w.callers[o])
    ensures CallersOk(w1)
  {
  }

  lemma InsertStepShape(w: World, c: CallerId, input: Input)
    requires c in w.callers && w.callers[c].pc == Inserting
    ensures var k, key, w1 := CoreOf(w), w.callers[c].call.key, AdvanceCaller(w, c, input);
            && CoreOf(w1) == (if input.newId in k.runs || key in k.byKey then k else InsertedCore(k, input.newId, key, input.now))
            && w1.callers == w.callers[c := w.callers[c].(pc := Fetching)]
  {
  }

  lemma FinishStepShape(w: World, c: CallerId, input: Input, r: RunId, n: nat, result: ExecutionResult)
    requires c in w.callers && w.callers[c].pc == Finishing(r, n, result)
    requires r in w.tables.runs && w.tables.runs[r].state.Running?
    ensures var k, w1 := CoreOf(w), AdvanceCaller(w, c, input);
            && CoreOf(w1) == FinishedCore(k, c, r, result, input.now)
            && w1.callers == w.callers[c := w.callers[c].(pc := Recording(r, result, w1.tables.runs[r]))]
  {
  }

  lemma InsertStepKeepsInv(w: World, c: CallerId, input: Input)
    requires Inv(w) && c in w.callers && w.callers[c].pc == Inserting
    ensures Inv(AdvanceCaller(w, c, input))
  {
    var k, key, w1 := CoreOf(w), w.callers[c].call.key, AdvanceCaller(w, c, input);
    assert CallerOk(k, c, w.callers[c]);
    if input.newId in k.runs || key in k.byKey {
      assert CoreOf(w1) == k;
    } else {
      assert CoreOf(w1) == InsertedCore(k, input.newId, key, input.now);
      InsertKeepsTables(k, input.newId, key, input.now);
      forall o | o in w.callers
        ensures CallerOk(CoreOf(w1), o, w.callers[o])
      {
        InsertKeepsCaller(k, input.newId, key, input.now, o, w.callers[o]);
      }
    }
    OneCallerMoved(w, w1, c);
  }

  lemma AppendMoverOk(k: Core, c: CallerId, call: Call, r: RunId, n: nat, result: ExecutionResult, now: int)
    requires RowOk(k, r) && ValidCall(call) && Working(k, c, call, r, n) && n !in Of(k.attempts, r)
    ensures CallerOk(Appended(k, c, r, n, result, now), c,
                     Caller(call, if Retryable(result) && n < call.maxAttempts then Attempting(r, n + 1)
                                  else Finishing(r, n, result)))
  {
    AppendExtendsRunningRun(k, c, call, r, n);
  }

  lemma AppendStepShape(w: World, c: CallerId, input: Input, r: RunId, n: nat, result: ExecutionResult)
    requires c in w.callers && w.callers[c].pc == Appending(r, n, result) && r in w.tables.runs && 1 <= n <= 3
    ensures var k, call, w1 := CoreOf(w), w.callers[c].call, AdvanceCaller(w, c, input);
            if n in Of(k.attempts, r) then w1 == Goto(w, c, Dead) && CoreOf(w1) == k
            else
              && CoreOf(w1) == Appended(k, c, r, n, result, input.now)
              && w1.callers == w.callers[c := Caller(call, if Retryable(result) && n < call.maxAttempts
                                                           then Attempting(r, n + 1) else Finishing(r, n, result))]
  {
  }

  lemma AppendStepKeepsInv(w: World, c: CallerId, input: Input, r: RunId, n: nat, result: ExecutionResult)
    requires Inv(w) && c in w.callers && w.callers[c].pc == Appending(r, n, result)
    ensures Inv(AdvanceCaller(w, c, input))
  {
    var k, call, w1 := CoreOf(w), w.callers[c].call, AdvanceCaller(w, c, input);
    assert CallerOk(k, c, w.callers[c]);
    AppendStepShape(w, c, input, r, n, result);
    if n in Of(k.attempts, r) {
      assert CoreOf(w1) == k;
    } else {
      AppendKeepsTables(k, c, call, r, n, result, input.now);
      AppendMoverOk(k, c, call, r, n, result, input.now);
      forall o | o in w.callers && o != c
        ensures CallerOk(CoreOf(w1), o, w.callers[o])
      {
        AppendKeepsOthers(k, c, call, r, n, result, input.now, o, w.callers[o]);
      }
    }
    OneCallerMoved(w, w1, c);
  }

  lemma FinishStepKeepsCallers(w: World, c: CallerId, input: Input, r: RunId, n: nat, result: ExecutionResult)
    requires CallersOk(w) && c in w.callers && w.callers[c].pc == Finishing(r, n, result) && RowOk(CoreOf(w), r)
    ensures CallersOk(AdvanceCaller(w, c, input))
  {
    var k, w1 := CoreOf(w), AdvanceCaller(w, c, input);
    assert CallerOk(k, c, w.callers[c]);
    FinishStepShape(w, c, input, r, n, result);
    forall o | o in w.callers && o != c
      ensures CallerOk(CoreOf(w1), o, w.callers[o])
    {
      FinishKeepsOthers(k, c, w.callers[c], r, n, result, input.now, o, w.callers[o]);
    }
    OneCallerMoved(w, w1, c);
  }

  lemma FinishStepKeepsInv(w: World, c: CallerId, input: Input, r: RunId, n: nat, result: ExecutionResult)
    requires Inv(w) && c in w.callers && w.callers[c].pc == Finishing(r, n, result)
    ensures Inv(AdvanceCaller(w, c, input))
  {
    assert CallerOk(CoreOf(w), c, w.callers[c]);
    FinishStepShape(w, c, input, r, n, result);
    FinishKeepsTables(CoreOf(w), c, w.callers[c], r, n, result, input.now);
    FinishStepKeepsCallers(w, c, input, r, n, result);
  }

  predicate Quiet(pc: Pc) {
    !pc.Inserting? && !pc.Appending? && !pc.Finishing?
  }

  /** The other steps write neither a run nor an attempt. */
  lemma QuietStepShape(w: World, c: CallerId, input: Input)
    requires c in w.callers && Quiet(w.callers[c].pc)
    ensures var w1 := AdvanceCaller(w, c, input);
            && CoreOf(w1) == CoreOf(w)
            && c in w1.callers
            && w1.callers == w.callers[c := w1.callers[c]]
            && w1.callers[c].call == w.callers[c].call
  {
    match w.callers[c].pc
    case Claiming =>
    case Recording(_, _, _) =>
    case Cleared(_, _) =>
    case Lookup =>
    case Fetching =>
    case _ =>
  }

  lemma QuietMoverOk(w: World, c: CallerId, input: Input)
    requires TablesOk(CoreOf(w)) && c in w.callers && CallerOk(CoreOf(w), c, w.callers[c]) && Quiet(w.callers[c].pc)
    ensures c in AdvanceCaller(w, c, input).callers
    ensures CallerOk(CoreOf(w), c, AdvanceCaller(w, c, input).callers[c])
  {
    var k := CoreOf(w);
    match w.callers[c].pc
    case Lookup => FoundRow(k, w.tables, w.callers[c].call.key);
    case Fetching => FoundRow(k, w.tables, w.callers[c].call.key);
    case Recording(r, result, row) =>
    case _ =>
  }

  lemma QuietStepKeepsInv(w: World, c: CallerId, input: Input)
    requires Inv(w) && c in w.callers && Quiet(w.callers[c].pc)
    ensures Inv(AdvanceCaller(w, c, input))
  {
    QuietStepShape(w, c, input);
    QuietMoverOk(w, c, input);
    OneCallerMoved(w, AdvanceCaller(w, c, input), c);
  }

  lemma AdvanceKeepsInv(w: World, c: CallerId, input: Input)
    requires Inv(w) && c in w.callers
    ensures Inv(AdvanceCaller(w, c, input))
  {
    match w.callers[c].pc
    case Inserting => InsertStepKeepsInv(w, c, input);
    case Appending(r, n, result) => AppendStepKeepsInv(w, c, input, r, n, result);
    case Finishing(r, n, result) => FinishStepKeepsInv(w, c, input, r, n, result);
    case _ => QuietStepKeepsInv(w, c, input);
  }

  /** Every other action leaves the core alone; it can only add a caller, kill one, or move a control client. */
  lemma OtherStepShape(w: World, a: Action)
    requires !a.Advance?
    ensures CoreOf(Next(w, a)) == CoreOf(w)
    ensures var callers := Next(w, a).callers;
            || callers == w.callers
            || (a.StartCall? && a.caller !in w.callers && ValidCall(a.call)
                && callers == w.callers[a.caller := Caller(a.call, Lookup)])
            || (a.Crash? && a.caller in w.callers && callers == w.callers[a.caller := w.callers[a.caller].(pc := Dead)])
  {
    match a
    case AdvanceControl(k) =>
    case _ =>
  }

  lemma StepKeepsInv(w: World, a: Action)
    requires Inv(w)
    ensures Inv(Next(w, a))
  {
    if a.Advance? {
      if a.caller in w.callers { AdvanceKeepsInv(w, a.caller, a.input); }
    } else {
      OtherStepShape(w, a);
    }
  }

  lemma {:induction false} ExecKeepsInv(w: World, actions: seq<Action>)
    requires Inv(w)
    ensures Inv(Exec(w, actions))
    decreases |actions|
  {
    if actions != [] {
      StepKeepsInv(w, actions[0]);
      ExecKeepsInv(Next(w, actions[0]), actions[1..]);
    }
  }

  lemma InitialInv()
    ensures Inv(INITIAL)
  {
  }

  // ---- retries ----

  /** A run that ended in a failure or a timeout used every attempt its owner's template allows. */
  ghost predicate Exhausted(k: Core, callers: map<CallerId, Caller>) {
    forall r :: r in k.finishedBy ==>
      && r in k.runs
      && k.runs[r].result.Some?
      && k.finishedBy[r] in callers
      && (Retryable(k.runs[r].result.value) ==> k.runs[r].attemptCount == callers[k.finishedBy[r]].call.maxAttempts)
  }

  ghost predicate RetriesExhausted(w: World) {
    Exhausted(CoreOf(w), w.callers)
  }

  ghost predicate SameCalls(callers: map<CallerId, Caller>, callers1: map<CallerId, Caller>) {
    forall c :: c in callers ==> c in callers1 && callers1[c].call == callers[c].call
  }

  lemma ExhaustedFrame(k: Core, callers: map<CallerId, Caller>, k1: Core, callers1: map<CallerId, Caller>)
    requires Exhausted(k, callers) && k1.finishedBy == k.finishedBy && SameCalls(callers, callers1)
    requires forall r :: r in k.finishedBy && r in k.runs ==> r in k1.runs && k1.runs[r] == k.runs[r]
    ensures Exhausted(k1, callers1)
  {
  }

  lemma AppendLeavesFinishedRows(k: Core, c: CallerId, call: Call, r: RunId, n: nat, result: ExecutionResult, now: int)
    requires RowOk(k, r) && Working(k, c, call, r, n) && n !in Of(k.attempts, r)
    ensures forall r1 :: r1 in k.finishedBy && r1 in k.runs ==> Appended(k, c, r, n, result, now).runs[r1] == k.runs[r1]
  {
    AppendExtendsRunningRun(k, c, call, r, n);
  }

  lemma AppendKeepsRetries(w: World, c: CallerId, input: Input, r: RunId, n: nat, result: ExecutionResult)
    requires RetriesExhausted(w) && c in w.callers && w.callers[c].pc == Appending(r, n, result)
    requires RowOk(CoreOf(w), r) && CallerOk(CoreOf(w), c, w.callers[c])
    ensures RetriesExhausted(AdvanceCaller(w, c, input))
  {
    var k, w1 := CoreOf(w), AdvanceCaller(w, c, input);
    AppendStepShape(w, c, input, r, n, result);
    if n !in Of(k.attempts, r) {
      AppendLeavesFinishedRows(k, c, w.callers[c].call, r, n, result, input.now);
    }
    ExhaustedFrame(k, w.callers, CoreOf(w1), w1.callers);
  }

  lemma FinishKeepsRetries(w: World, c: CallerId, input: Input, r: RunId, n: nat, result: ExecutionResult)
    requires RetriesExhausted(w) && c in w.callers && w.callers[c].pc == Finishing(r, n, result)
    requires CallerOk(CoreOf(w), c, w.callers[c])
    ensures RetriesExhausted(AdvanceCaller(w, c, input))
  {
    FinishStepShape(w, c, input, r, n, result);
  }

  lemma InsertKeepsRetries(w: World, c: CallerId, input: Input)
    requires RetriesExhausted(w) && c in w.callers && w.callers[c].pc == Inserting
    ensures RetriesExhausted(AdvanceCaller(w, c, input))
  {
    InsertStepShape(w, c, input);
    var w1 := AdvanceCaller(w, c, input);
    ExhaustedFrame(CoreOf(w), w.callers, CoreOf(w1), w1.callers);
  }

  lemma QuietStepKeepsRetries(w: World, c: CallerId, input: Input)
    requires RetriesExhausted(w) && c in w.callers && Quiet(w.callers[c].pc)
    ensures RetriesExhausted(AdvanceCaller(w, c, input))
  {
    QuietStepShape(w, c, input);
    var w1 := AdvanceCaller(w, c, input);
    ExhaustedFrame(CoreOf(w), w.callers, CoreOf(w1), w1.callers);
  }

  lemma AdvanceKeepsRetries(w: World, c: CallerId, input: Input)
    requires Inv(w) && RetriesExhausted(w) && c in w.callers
    ensures RetriesExhausted(AdvanceCaller(w, c, input))
  {
    match w.callers[c].pc
    case Finishing(r, n, result) => FinishKeepsRetries(w, c, input, r, n, result);
    case Appending(r, n, result) => AppendKeepsRetries(w, c, input, r, n, result);
    case Inserting => InsertKeepsRetries(w, c, input);
    case _ => QuietStepKeepsRetries(w, c, input);
  }

  lemma StepKeepsRetries(w: World, a: Action)
    requires Inv(w) && RetriesExhausted(w)
    ensures RetriesExhausted(Next(w, a))
  {
    if a.Advance? {
      if a.caller in w.callers { AdvanceKeepsRetries(w, a.caller, a.input); }
    } else {
      OtherStepShape(w, a);
      ExhaustedFrame(CoreOf(w), w.callers, CoreOf(Next(w, a)), Next(w, a).callers);
    }
  }

  lemma {:induction false} ExecKeepsRetries(w: World, actions: seq<Action>)
    requires Inv(w) && RetriesExhausted(w)
    ensures RetriesExhausted(Exec(w, actions))
    decreases |actions|
  {
    if actions != [] {
      StepKeepsInv(w, actions[0]);
      StepKeepsRetries(w, actions[0]);
      ExecKeepsRetries(Next(w, actions[0]), actions[1..]);
    }
  }

  // ---- theorems ----

  /** Whatever happened, a key has at most one run, found through the index. */
  lemma OneRunPerKey(actions: seq<Action>, r1: RunId, r2: RunId)
    requires var t := Exec(INITIAL, actions).tables; r1 in t.runs && r2 in t.runs && t.runs[r1].key == t.runs[r2].key
    ensures r1 == r2
    ensures var t := Exec(INITIAL, actions).tables; FindRun(t, t.runs[r1].key) == Some((r1, t.runs[r1]))
  {
    InitialInv();
    ExecKeepsInv(INITIAL, actions);
    assert KeysAreUnique(CoreOf(Exec(INITIAL, actions)));
  }

  /**
   Single owner: in every interleaving with any crashes, the attempts of a run are exactly
   1..attempt_count, at most three, all written by one call, and every one but the last was
   a failure or a timeout. A finished row repeats its last attempt, was finished by that same
   call, and if it ended in a failure or a timeout no allowed attempt was left.
   */
  lemma SingleOwner(actions: seq<Action>, r: RunId)
    requires r in Exec(INITIAL, actions).tables.runs
    ensures var w := Exec(INITIAL, actions);
            var count := w.tables.runs[r].attemptCount;
            && count <= 3
            && (forall n: nat :: n in Of(w.tables.attempts, r) <==> 1 <= n <= count)
            && (forall n: nat :: n in Of(w.history.attemptBy, r) <==> 1 <= n <= count)
            && (forall n: nat, m: nat :: 1 <= n <= count && 1 <= m <= count ==>
                  Of(w.history.attemptBy, r)[n] == Of(w.history.attemptBy, r)[m])
            && (forall n: nat :: 1 <= n < count ==> Retryable(Of(w.tables.attempts, r)[n].result))
    ensures var w := Exec(INITIAL, actions);
            var row := w.tables.runs[r];
            row.state.Finished? ==>
              && row.attemptCount in Of(w.tables.attempts, r)
              && row.result == Some(Of(w.tables.attempts, r)[row.attemptCount].result)
              && row.state.classification == row.result.value.classification
              && r in w.history.finishedBy
              && w.history.finishedBy[r] == Of(w.history.attemptBy, r)[row.attemptCount]
              && w.history.finishedBy[r] in w.callers
              && (Retryable(row.result.value) ==> row.attemptCount == w.callers[w.history.finishedBy[r]].call.maxAttempts)
  {
    InitialInv();
    ExecKeepsInv(INITIAL, actions);
    ExecKeepsRetries(INITIAL, actions);
    var k := CoreOf(Exec(INITIAL, actions));
    assert RowOk(k, r);
  }

  lemma AppendKeepsFinishedRun(k: Core, c: CallerId, call: Call, r1: RunId, n: nat, result: ExecutionResult, now: int, r: RunId)
    requires RowOk(k, r1) && Working(k, c, call, r1, n) && n !in Of(k.attempts, r1)
    requires r in k.runs && k.runs[r].state.Finished?
    ensures SameRun(k, Appended(k, c, r1, n, result, now), r)
  {
    AppendExtendsRunningRun(k, c, call, r1, n);
  }

  lemma FinishKeepsFinishedRun(k: Core, c: CallerId, r1: RunId, result: ExecutionResult, now: int, r: RunId)
    requires r1 in k.runs && k.runs[r1].state.Running? && r in k.runs && k.runs[r].state.Finished?
    ensures SameRun(k, FinishedCore(k, c, r1, result, now), r)
  {
  }

  lemma InsertKeepsOldRun(k: Core, id: RunId, key: RequestKey, now: int, r: RunId)
    requires id !in k.runs && r in k.runs
    ensures SameRun(k, InsertedCore(k, id, key, now), r)
  {
  }

  lemma AdvanceKeepsFinishedRun(w: World, c: CallerId, input: Input, r: RunId)
    requires Inv(w) && c in w.callers && r in w.tables.runs && w.tables.runs[r].state.Finished?
    ensures SameRun(CoreOf(w), CoreOf(AdvanceCaller(w, c, input)), r)
  {
    var k := CoreOf(w);
    assert CallerOk(k, c, w.callers[c]);
    match w.callers[c].pc
    case Inserting =>
      InsertStepShape(w, c, input);
      if input.newId !in k.runs { InsertKeepsOldRun(k, input.newId, w.callers[c].call.key, input.now, r); }
    case Finishing(r1, n, result) =>
      FinishStepShape(w, c, input, r1, n, result);
      FinishKeepsFinishedRun(k, c, r1, result, input.now, r);
    case Appending(r1, n, result) =>
      AppendStepShape(w, c, input, r1, n, result);
      if n !in Of(k.attempts, r1) { AppendKeepsFinishedRun(k, c, w.callers[c].call, r1, n, result, input.now, r); }
    case _ => QuietStepShape(w, c, input);
  }

  lemma StepKeepsFinishedRun(w: World, a: Action, r: RunId)
    requires Inv(w) && r in w.tables.runs && w.tables.runs[r].state.Finished?
    ensures SameRun(CoreOf(w), CoreOf(Next(w, a)), r)
  {
    if a.Advance? {
      if a.caller in w.callers { AdvanceKeepsFinishedRun(w, a.caller, a.input, r); }
    } else {
      OtherStepShape(w, a);
    }
  }

  lemma SameRunTransitive(k: Core, k1: Core, k2: Core, r: RunId)
    requires SameRun(k, k1, r) && SameRun(k1, k2, r)
    ensures SameRun(k, k2, r)
  {
  }

  lemma {:induction false} FinishedRunStays(w: World, actions: seq<Action>, r: RunId)
    requires Inv(w) && r in w.tables.runs && w.tables.runs[r].state.Finished?
    ensures SameRun(CoreOf(w), CoreOf(Exec(w, actions)), r)
    decreases |actions|
  {
    if actions != [] {
      var w1 := Next(w, actions[0]);
      StepKeepsInv(w, actions[0]);
      StepKeepsFinishedRun(w, actions[0], r);
      assert w1.tables.runs[r] == CoreOf(w1).runs[r];
      FinishedRunStays(w1, actions[1..], r);
      SameRunTransitive(CoreOf(w), CoreOf(w1), CoreOf(Exec(w1, actions[1..])), r);
    }
  }

  /** A finished run never changes again: neither its row, nor its attempts, nor who wrote them. */
  lemma FinishedRunsAreFrozen(first: seq<Action>, second: seq<Action>, r: RunId)
    requires var t := Exec(INITIAL, first).tables; r in t.runs && t.runs[r].state.Finished?
    ensures SameRun(CoreOf(Exec(INITIAL, first)), CoreOf(Exec(INITIAL, first + second)), r)
  {
    InitialInv();
    ExecKeepsInv(INITIAL, first);
    ExecConcat(INITIAL, first, second);
    FinishedRunStays(Exec(INITIAL, first), second, r);
  }

  /** What a call returns is the stored terminal row of its own key. */
  lemma ReturnedRowIsStored(actions: seq<Action>, c: CallerId)
    requires var w := Exec(INITIAL, actions); c in w.callers && w.callers[c].pc.Returned?
    ensures var w := Exec(INITIAL, actions);
            var pc := w.callers[c].pc;
            && FindRun(w.tables, w.callers[c].call.key) == Some((pc.run, pc.row))
            && pc.row.state.Finished?
  {
    InitialInv();
    ExecKeepsInv(INITIAL, actions);
    var w := Exec(INITIAL, actions);
    assert CallerOk(CoreOf(w), c, w.callers[c]);
  }
}
