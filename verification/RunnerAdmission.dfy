/** How much the runner executes: no call beyond its attempts, and a probe runs alone. */
module RunnerAdmission {
  import opened Common
  import opened TaskTables
  import opened RunnerProtocol
  import opened RunnerOwnership
  import opened RunnerCircuit

  // ---- counting ----

  function StartsBy(log: seq<CircuitEntry>, c: CallerId): nat {
    if log == [] then 0
    else StartsBy(log[..|log| - 1], c) + (if log[|log| - 1] == Started(c) then 1 else 0)
  }

  // ---- at most three executor calls per call ----

  /** The executor calls a call with this many attempts can have made by the time it is at `pc`. */
  function StartsBefore(pc: Pc, maxAttempts: nat): nat {
    match pc
    case Attempting(_, n) => if n == 0 then 0 else n - 1
    case Cleared(_, n) => if n == 0 then 0 else n - 1
    case Executing(_, n) => n
    case Appending(_, n, _) => n
    case Finishing(_, n, _) => n
    case Recording(_, _, _) => maxAttempts
    case Returned(_, _) => maxAttempts
    case Dead => maxAttempts
    case _ => 0
  }

  ghost predicate StartsOk(w: World, p: ProjectId, c: CallerId) {
    if c in w.callers && w.callers[c].call.key.project == p then
      StartsBy(Log(w, p), c) <= StartsBefore(w.callers[c].pc, w.callers[c].call.maxAttempts)
    else StartsBy(Log(w, p), c) == 0
  }

  lemma StartsBySnoc(log: seq<CircuitEntry>, entry: CircuitEntry, c: CallerId)
    ensures StartsBy(log + [entry], c) == StartsBy(log, c) + (if entry == Started(c) then 1 else 0)
  {
    assert (log + [entry])[..|log|] == log;
  }

  lemma AdvancePcOnlyMoves(w: World, c: CallerId, input: Input, o: CallerId)
    requires c in w.callers && o != c
    ensures o in AdvanceCaller(w, c, input).callers <==> o in w.callers
    ensures o in w.callers ==> AdvanceCaller(w, c, input).callers[o] == w.callers[o]
  {
    match w.callers[c].pc
    case Claiming =>
    case Appending(_, _, _) =>
    case Finishing(_, _, _) =>
    case _ =>
  }

  /** A step of a call never lowers the number of executor calls its place stands for, and a start raises it. */
  lemma AdvanceRaisesBound(w: World, c: CallerId, input: Input)
    requires c in w.callers && CallerOk(CoreOf(w), c, w.callers[c])
    ensures c in AdvanceCaller(w, c, input).callers
    ensures var pc, pc1 := w.callers[c].pc, AdvanceCaller(w, c, input).callers[c].pc;
            var max := w.callers[c].call.maxAttempts;
            StartsBefore(pc1, max) >= StartsBefore(pc, max) + (if pc.Cleared? then 1 else 0)
  {
    hide FindRun, InsertRun, AppendAttempt, FinishRun, ClaimAnswer, ClaimCircuit, RecordFailure, RecordSuccess, Log, Put;
    match w.callers[c].pc
    case Claiming =>
    case Appending(_, _, _) =>
    case Finishing(_, _, _) =>
    case _ =>
  }

  lemma AdvanceKeepsStarts(w: World, d: CallerId, input: Input, p: ProjectId, c: CallerId)
    requires d in w.callers && CallerOk(CoreOf(w), d, w.callers[d]) && StartsOk(w, p, c)
    ensures StartsOk(AdvanceCaller(w, d, input), p, c)
  {
    AdvanceCircuitShape(w, d, input, p);
    AdvanceRaisesBound(w, d, input);
    if c != d { AdvancePcOnlyMoves(w, d, input, c); }
    var log1 := Log(AdvanceCaller(w, d, input), p);
    if log1 != Log(w, p) { StartsBySnoc(Log(w, p), log1[|log1| - 1], c); }
  }

  lemma StepKeepsStarts(w: World, a: Action, p: ProjectId, c: CallerId)
    requires Inv(w) && StartsOk(w, p, c)
    ensures StartsOk(Next(w, a), p, c)
  {
    if a.Advance? {
      if a.caller in w.callers {
        assert CallerOk(CoreOf(w), a.caller, w.callers[a.caller]);
        AdvanceKeepsStarts(w, a.caller, a.input, p, c);
      }
    } else {
      OtherStepShape(w, a);
      OtherStepCircuitShape(w, a, p);
      assert c in w.callers ==> CallerOk(CoreOf(w), c, w.callers[c]);
    }
  }

  lemma {:induction false} ExecKeepsStarts(w: World, actions: seq<Action>, p: ProjectId, c: CallerId)
    requires Inv(w) && StartsOk(w, p, c)
    ensures StartsOk(Exec(w, actions), p, c)
    decreases |actions|
  {
    if actions != [] {
      StepKeepsInv(w, actions[0]);
      StepKeepsStarts(w, actions[0], p, c);
      ExecKeepsStarts(Next(w, actions[0]), actions[1..], p, c);
    }
  }

  /**
   No call starts the executor more often than its template allows attempts, wherever it is and
   whatever it races with; that is at most three times.
   */
  lemma StartsWithinMaxAttempts(actions: seq<Action>, p: ProjectId, c: CallerId)
    ensures var w := Exec(INITIAL, actions);
            && StartsBy(Log(w, p), c) <= (if c in w.callers then w.callers[c].call.maxAttempts else 0)
            && StartsBy(Log(w, p), c) <= 3
  {
    InitialInv();
    ExecKeepsInv(INITIAL, actions);
    ExecKeepsStarts(INITIAL, actions, p, c);
    var w := Exec(INITIAL, actions);
    assert c in w.callers ==> CallerOk(CoreOf(w), c, w.callers[c]);
  }

  // ---- a probe runs alone ----

  /** Admitted by the circuit, neither recorded nor dead. */
  predicate Live(w: World, p: ProjectId, c: CallerId) {
    && c in w.callers
    && w.callers[c].call.key.project == p
    && match w.callers[c].pc
       case Inserting => true
       case Fetching => true
       case Attempting(_, _) => true
       case Cleared(_, _) => true
       case Executing(_, _) => true
       case Appending(_, _, _) => true
       case Finishing(_, _, _) => true
       case Recording(_, _, _) => true
       case _ => false
  }

  predicate HasRecorded(log: seq<CircuitEntry>, c: CallerId) {
    exists i :: 0 <= i < |log| && log[i].Recorded? && log[i].caller == c
  }

  ghost predicate Alone(w: World, p: ProjectId, c: CallerId) {
    ProbeOut(Log(w, p)) && forall o :: Live(w, p, o) ==> o == c
  }

  /** Only a granted claim makes a call live; then the project's history shows the admission. */
  lemma BecomesLiveByClaim(w: World, c: CallerId, input: Input, p: ProjectId)
    requires c in w.callers && Live(AdvanceCaller(w, c, input), p, c) && !Live(w, p, c)
    ensures w.callers[c].pc == Claiming && w.callers[c].call.key.project == p
    ensures ClaimAnswer(w.tables, p, w.callers[c].call.threshold, w.callers[c].call.cooldown, input.now).Granted?
  {
    match w.callers[c].pc
    case Claiming =>
    case Finishing(_, _, _) =>
    case _ =>
  }

  lemma AdvanceKeepsAlone(w: World, d: CallerId, input: Input, p: ProjectId, policy: Policy, c: CallerId)
    requires CircuitOk(w, p, policy) && Alone(w, p, c) && d in w.callers
    ensures Alone(AdvanceCaller(w, d, input), p, c) || HasRecorded(Log(AdvanceCaller(w, d, input), p), c)
  {
    var w1 := AdvanceCaller(w, d, input);
    var log, log1 := Log(w, p), Log(w1, p);
    AdvanceCircuitShape(w, d, input, p);
    ClaimFollowsHistory(w, p, policy, input.now);
    if log1 != log {
      var last := log1[|log1| - 1];
      assert log1[..|log1| - 1] == log;
      if last.Recorded? { assert Live(w, p, d); }
    }
    forall o | Live(w1, p, o)
      ensures o == c
    {
      if o != d { AdvancePcOnlyMoves(w, d, input, o); }
      if !Live(w, p, o) { BecomesLiveByClaim(w, d, input, p); }
    }
  }

  lemma HistoryOnlyGrows(w: World, a: Action, p: ProjectId)
    ensures Log(w, p) <= Log(Next(w, a), p)
  {
    if a.Advance? {
      if a.caller in w.callers { AdvanceCircuitShape(w, a.caller, a.input, p); }
    } else {
      OtherStepCircuitShape(w, a, p);
    }
  }

  lemma {:induction false} ExecKeepsAlone(w: World, actions: seq<Action>, p: ProjectId, policy: Policy, c: CallerId)
    requires CircuitOk(w, p, policy) && (Alone(w, p, c) || HasRecorded(Log(w, p), c))
    requires forall a :: a in actions ==> Follows(a, p, policy)
    ensures Alone(Exec(w, actions), p, c) || HasRecorded(Log(Exec(w, actions), p), c)
    decreases |actions|
  {
    if actions != [] {
      var a := actions[0];
      var w1 := Next(w, a);
      ExecKeepsCircuit(w, [a], p, policy);
      assert Exec(w, [a]) == w1;
      HistoryOnlyGrows(w, a, p);
      if !HasRecorded(Log(w, p), c) {
        if a.Advance? {
          if a.caller in w.callers { AdvanceKeepsAlone(w, a.caller, a.input, p, policy, c); }
        } else {
          OtherStepShape(w, a);
          OtherStepCircuitShape(w, a, p);
          assert forall o :: Live(w1, p, o) ==> Live(w, p, o);
        }
      } else {
        var i :| 0 <= i < |Log(w, p)| && Log(w, p)[i].Recorded? && Log(w, p)[i].caller == c;
        assert Log(w1, p)[i] == Log(w, p)[i];
      }
      ExecKeepsAlone(w1, actions[1..], p, policy, c);
    }
  }

  /**
   A probe granted when no admitted call of the project is still live is the only live call of
   that project until it has been recorded, whatever the other callers try meanwhile.
   */
  lemma ProbeRunsAlone(before: seq<Action>, after: seq<Action>, p: ProjectId, policy: Policy, c: CallerId, input: Input, o: CallerId)
    requires policy.threshold >= 1
    requires forall a :: a in before + after ==> Follows(a, p, policy)
    requires var w := Exec(INITIAL, before);
             && c in w.callers && w.callers[c].pc == Claiming && w.callers[c].call.key.project == p
             && ClaimAnswer(w.tables, p, policy.threshold, policy.cooldown, input.now) == Granted(true)
             && forall d :: !Live(w, p, d)
    requires var w2 := Exec(INITIAL, before + [Advance(c, input)] + after);
             Live(w2, p, o) && !HasRecorded(Log(w2, p), c)
    ensures o == c
  {
    var w := Exec(INITIAL, before);
    var w1 := AdvanceCaller(w, c, input);
    assert forall a :: a in before ==> a in before + after;
    assert forall a :: a in after ==> a in before + after;
    ExecKeepsCircuit(INITIAL, before, p, policy);
    AdvanceKeepsCircuit(w, c, input, p, policy);
    AdvanceCircuitShape(w, c, input, p);
    assert Log(w1, p)[|Log(w1, p)| - 1] == Admitted(c, input.now, true);
    forall d | Live(w1, p, d)
      ensures d == c
    {
      assert !Live(w, p, d);
      if d != c { AdvancePcOnlyMoves(w, c, input, d); }
    }
    assert before + [Advance(c, input)] + after == before + ([Advance(c, input)] + after);
    ExecConcat(INITIAL, before, [Advance(c, input)] + after);
    ExecConcat(w, [Advance(c, input)], after);
    assert Exec(w, [Advance(c, input)]) == w1;
    ExecKeepsAlone(w1, after, p, policy, c);
  }
}
