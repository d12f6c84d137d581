/** What a request to the runner amounts to: recorded once by its owner, repeated without executing. */
module RunnerRequests {
  import opened Common
  import opened TaskTables
  import opened RunnerProtocol
  import opened RunnerOwnership
  import opened RunnerCircuit
  import opened RunnerAdmission

  // ---- each run reaches the circuit once, through its owner ----

  /** A record entry belongs to a call that owned the run, has returned it, and reported how it ended. */
  predicate RecordOk(k: Core, callers: map<CallerId, Caller>, p: ProjectId, entry: CircuitEntry) {
    entry.Recorded? ==>
      && entry.caller in callers
      && callers[entry.caller].call.key.project == p
      && callers[entry.caller].pc.Returned?
      && callers[entry.caller].pc.run == entry.run
      && Owns(k, entry.caller, entry.run)
      && entry.run in k.runs
      && k.runs[entry.run].state.Finished?
      && (entry.success <==> k.runs[entry.run].state.classification.Success?)
  }

  ghost predicate EntriesOk(w: World, p: ProjectId) {
    forall i :: 0 <= i < |Log(w, p)| ==> RecordOk(CoreOf(w), w.callers, p, Log(w, p)[i])
  }

  ghost predicate RecordersDiffer(log: seq<CircuitEntry>) {
    forall i, j :: 0 <= i < j < |log| && log[i].Recorded? && log[j].Recorded? ==> log[i].caller != log[j].caller
  }

  ghost predicate RecordsOk(w: World, p: ProjectId) {
    EntriesOk(w, p) && RecordersDiffer(Log(w, p))
  }

  lemma NewRecorderDiffers(w: World, p: ProjectId, entry: CircuitEntry)
    requires RecordsOk(w, p)
    requires entry.Recorded? ==> entry.caller in w.callers && w.callers[entry.caller].pc.Recording?
    ensures RecordersDiffer(Log(w, p) + [entry])
  {
    var log := Log(w, p);
    forall i | 0 <= i < |log| && log[i].Recorded? && entry.Recorded?
      ensures log[i].caller != entry.caller
    {
      assert RecordOk(CoreOf(w), w.callers, p, log[i]);
    }
  }

  lemma RecordFrame(k: Core, callers: map<CallerId, Caller>, k1: Core, callers1: map<CallerId, Caller>,
                    p: ProjectId, entry: CircuitEntry)
    requires RecordOk(k, callers, p, entry)
    requires entry.Recorded? ==> SameRun(k, k1, entry.run)
    requires entry.Recorded? && entry.caller in callers ==>
               entry.caller in callers1 && callers1[entry.caller] == callers[entry.caller]
    ensures RecordOk(k1, callers1, p, entry)
  {
  }

  lemma ReturnedStays(w: World, c: CallerId, input: Input)
    requires c in w.callers && w.callers[c].pc.Returned?
    ensures AdvanceCaller(w, c, input) == w
  {
  }

  lemma AdvanceKeepsRecord(w: World, c: CallerId, input: Input, p: ProjectId, entry: CircuitEntry)
    requires Inv(w) && c in w.callers && RecordOk(CoreOf(w), w.callers, p, entry)
    ensures RecordOk(CoreOf(AdvanceCaller(w, c, input)), AdvanceCaller(w, c, input).callers, p, entry)
  {
    var w1 := AdvanceCaller(w, c, input);
    if entry.Recorded? {
      AdvanceKeepsFinishedRun(w, c, input, entry.run);
      if entry.caller == c { ReturnedStays(w, c, input); } else { AdvancePcOnlyMoves(w, c, input, entry.caller); }
      RecordFrame(CoreOf(w), w.callers, CoreOf(w1), w1.callers, p, entry);
    }
  }

  lemma RecordingRecords(w: World, c: CallerId, input: Input, p: ProjectId, run: RunId, result: ExecutionResult, row: RunRow)
    requires c in w.callers && w.callers[c].call.key.project == p && w.callers[c].pc == Recording(run, result, row)
    requires CallerOk(CoreOf(w), c, w.callers[c]) && RowOk(CoreOf(w), run)
    ensures RecordOk(CoreOf(AdvanceCaller(w, c, input)), AdvanceCaller(w, c, input).callers, p,
                     Recorded(c, run, result.classification.Success?, input.now))
  {
    QuietStepShape(w, c, input);
  }

  /** The entry a step adds, if any, is in order. */
  lemma NewEntryOk(w: World, c: CallerId, input: Input, p: ProjectId)
    requires Inv(w) && c in w.callers && |Log(AdvanceCaller(w, c, input), p)| > |Log(w, p)|
    ensures var w1 := AdvanceCaller(w, c, input);
            var entry := Log(w1, p)[|Log(w, p)|];
            && Log(w1, p) == Log(w, p) + [entry]
            && RecordOk(CoreOf(w1), w1.callers, p, entry)
            && (entry.Recorded? ==> entry.caller == c && w.callers[c].pc.Recording?)
  {
    AdvanceCircuitShape(w, c, input, p);
    assert CallerOk(CoreOf(w), c, w.callers[c]);
    match w.callers[c].pc
    case Recording(run, result, row) => RecordingRecords(w, c, input, p, run, result, row);
    case _ =>
  }

  lemma AdvanceKeepsRecords(w: World, c: CallerId, input: Input, p: ProjectId)
    requires Inv(w) && c in w.callers && RecordsOk(w, p)
    ensures RecordsOk(AdvanceCaller(w, c, input), p)
  {
    var w1 := AdvanceCaller(w, c, input);
    var log, log1 := Log(w, p), Log(w1, p);
    AdvanceCircuitShape(w, c, input, p);
    if |log1| > |log| {
      NewEntryOk(w, c, input, p);
      NewRecorderDiffers(w, p, log1[|log|]);
    }
    forall i | 0 <= i < |log1|
      ensures RecordOk(CoreOf(w1), w1.callers, p, log1[i])
    {
      if i < |log| { AdvanceKeepsRecord(w, c, input, p, log[i]); }
    }
  }

  lemma OtherStepKeepsRecords(w: World, a: Action, p: ProjectId)
    requires !a.Advance? && RecordsOk(w, p)
    ensures RecordsOk(Next(w, a), p)
  {
    var w1 := Next(w, a);
    OtherStepShape(w, a);
    OtherStepCircuitShape(w, a, p);
    forall i | 0 <= i < |Log(w, p)|
      ensures RecordOk(CoreOf(w1), w1.callers, p, Log(w1, p)[i])
    {
      assert RecordOk(CoreOf(w), w.callers, p, Log(w, p)[i]);
    }
  }

  lemma StepKeepsRecords(w: World, a: Action, p: ProjectId)
    requires Inv(w) && RecordsOk(w, p)
    ensures RecordsOk(Next(w, a), p)
  {
    if !a.Advance? {
      OtherStepKeepsRecords(w, a, p);
    } else if a.caller in w.callers {
      AdvanceKeepsRecords(w, a.caller, a.input, p);
    }
  }

  lemma {:induction false} ExecKeepsRecords(w: World, actions: seq<Action>, p: ProjectId)
    requires Inv(w) && RecordsOk(w, p)
    ensures RecordsOk(Exec(w, actions), p)
    decreases |actions|
  {
    if actions != [] {
      StepKeepsInv(w, actions[0]);
      StepKeepsRecords(w, actions[0], p);
      ExecKeepsRecords(Next(w, actions[0]), actions[1..], p);
    }
  }

  lemma RecordersOwnDifferentRuns(w: World, p: ProjectId, i: nat, j: nat)
    requires RecordsOk(w, p) && i < |Log(w, p)| && j < |Log(w, p)|
    requires Log(w, p)[i].Recorded? && Log(w, p)[j].Recorded? && Log(w, p)[i].run == Log(w, p)[j].run
    ensures i == j
  {
    assert RecordOk(CoreOf(w), w.callers, p, Log(w, p)[i]) && RecordOk(CoreOf(w), w.callers, p, Log(w, p)[j]);
  }

  /**
   The circuit hears of a run from the call that owns it and from no other, and hears success
   exactly when the stored run is a success.
   */
  lemma OwnerRecords(actions: seq<Action>, p: ProjectId, i: nat)
    requires var log := Log(Exec(INITIAL, actions), p); i < |log| && log[i].Recorded?
    ensures var w := Exec(INITIAL, actions);
            var entry := Log(w, p)[i];
            && entry.run in w.tables.runs
            && w.tables.runs[entry.run].key.project == p
            && 1 in Of(w.history.attemptBy, entry.run) && Of(w.history.attemptBy, entry.run)[1] == entry.caller
            && w.tables.runs[entry.run].state.Finished?
            && (entry.success <==> w.tables.runs[entry.run].state.classification.Success?)
  {
    InitialInv();
    ExecKeepsInv(INITIAL, actions);
    ExecKeepsRecords(INITIAL, actions, p);
    hide Exec, TablesOk, RecordersDiffer, Log, CallerOk;
    var w := Exec(INITIAL, actions);
    assert RecordOk(CoreOf(w), w.callers, p, Log(w, p)[i]);
    var c := Log(w, p)[i].caller;
    RecordTellsRun(CoreOf(w), w.callers, p, Log(w, p)[i]);
  }

  lemma RecordTellsRun(k: Core, callers: map<CallerId, Caller>, p: ProjectId, entry: CircuitEntry)
    requires RecordOk(k, callers, p, entry) && entry.Recorded? && CallerOk(k, entry.caller, callers[entry.caller])
    ensures entry.run in k.runs && k.runs[entry.run].key.project == p && Owns(k, entry.caller, entry.run)
  {
  }

  /** And it hears of each run at most once. */
  lemma EachRunRecordedOnce(actions: seq<Action>, p: ProjectId, i: nat, j: nat)
    requires var log := Log(Exec(INITIAL, actions), p);
             i < |log| && j < |log| && log[i].Recorded? && log[j].Recorded? && log[i].run == log[j].run
    ensures i == j
  {
    InitialInv();
    ExecKeepsRecords(INITIAL, actions, p);
    RecordersOwnDifferentRuns(Exec(INITIAL, actions), p, i, j);
  }

  // ---- repeating a finished request ----

  /** Call `c` is about to look up, or has been given, the finished row of its own key; it has executed nothing. */
  ghost predicate RepeatsFinished(w: World, c: CallerId, r: RunId, row: RunRow) {
    && c in w.callers
    && r in w.tables.runs && w.tables.runs[r] == row && row.state.Finished?
    && row.key == w.callers[c].call.key
    && (w.callers[c].pc.Lookup? || w.callers[c].pc == Returned(r, row) || w.callers[c].pc.Dead?)
    && StartsBy(Log(w, row.key.project), c) == 0
  }

  lemma OwnStepKeepsRepeat(w: World, c: CallerId, input: Input, r: RunId, row: RunRow)
    requires KeysAreUnique(CoreOf(w)) && RepeatsFinished(w, c, r, row)
    ensures RepeatsFinished(AdvanceCaller(w, c, input), c, r, row)
  {
    assert FindRun(w.tables, row.key) == Some((r, row));
    AdvanceCircuitShape(w, c, input, row.key.project);
  }

  lemma OthersStepKeepsRepeat(w: World, d: CallerId, input: Input, c: CallerId, r: RunId, row: RunRow)
    requires Inv(w) && d in w.callers && RepeatsFinished(w, c, r, row) && c != d
    ensures RepeatsFinished(AdvanceCaller(w, d, input), c, r, row)
  {
    var w1 := AdvanceCaller(w, d, input);
    AdvanceKeepsFinishedRun(w, d, input, r);
    assert CoreOf(w1).runs == w1.tables.runs;
    AdvanceCircuitShape(w, d, input, row.key.project);
    var log, log1 := Log(w, row.key.project), Log(w1, row.key.project);
    if log1 != log { StartsBySnoc(log, log1[|log1| - 1], c); }
    AdvancePcOnlyMoves(w, d, input, c);
    hide AdvanceCaller, Log, StartsBy, Inv, RowAt;
  }

  lemma OtherStepKeepsRepeat(w: World, a: Action, c: CallerId, r: RunId, row: RunRow)
    requires !a.Advance? && RepeatsFinished(w, c, r, row)
    ensures RepeatsFinished(Next(w, a), c, r, row)
  {
    OtherStepShape(w, a);
    OtherStepCircuitShape(w, a, row.key.project);
    assert CoreOf(Next(w, a)).runs == Next(w, a).tables.runs;
  }

  lemma StepKeepsRepeat(w: World, a: Action, c: CallerId, r: RunId, row: RunRow)
    requires Inv(w) && RepeatsFinished(w, c, r, row)
    ensures RepeatsFinished(Next(w, a), c, r, row)
  {
    if !a.Advance? { OtherStepKeepsRepeat(w, a, c, r, row); }
    else if a.caller == c { OwnStepKeepsRepeat(w, c, a.input, r, row); }
    else if a.caller in w.callers { OthersStepKeepsRepeat(w, a.caller, a.input, c, r, row); }
  }

  lemma {:induction false} ExecKeepsRepeat(w: World, actions: seq<Action>, c: CallerId, r: RunId, row: RunRow)
    requires Inv(w) && RepeatsFinished(w, c, r, row)
    ensures RepeatsFinished(Exec(w, actions), c, r, row)
    decreases |actions|
  {
    if actions != [] {
      StepKeepsInv(w, actions[0]);
      StepKeepsRepeat(w, actions[0], c, r, row);
      ExecKeepsRepeat(Next(w, actions[0]), actions[1..], c, r, row);
    }
  }

  /**
   A call made once its run is finished never starts the executor: whatever happens around it,
   it has not looked yet, or returned the row as it was stored then, or died.
   */
  lemma RepeatedRequestReturnsStoredRun(before: seq<Action>, after: seq<Action>, c: CallerId, r: RunId)
    requires var w := Exec(INITIAL, before);
             && c in w.callers && w.callers[c].pc.Lookup?
             && r in w.tables.runs && w.tables.runs[r].state.Finished?
             && w.tables.runs[r].key == w.callers[c].call.key
    ensures var row := Exec(INITIAL, before).tables.runs[r];
            var w2 := Exec(INITIAL, before + after);
            && c in w2.callers
            && (w2.callers[c].pc.Lookup? || w2.callers[c].pc == Returned(r, row) || w2.callers[c].pc.Dead?)
            && StartsBy(Log(w2, row.key.project), c) == 0
  {
    InitialInv();
    ExecKeepsInv(INITIAL, before);
    var w := Exec(INITIAL, before);
    ExecKeepsStarts(INITIAL, before, w.callers[c].call.key.project, c);
    ExecConcat(INITIAL, before, after);
    ExecKeepsRepeat(w, after, c, r, w.tables.runs[r]);
  }
}
