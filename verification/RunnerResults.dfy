/** Where stored results come from: every attempt row holds what the executor answered its author, or why it was not asked. */
module RunnerResults {
  import opened Common
  import opened TaskTables
  import opened RunnerProtocol
  import opened RunnerOwnership

  /** The step `a` taken in world `w` gives caller `c` the result of its attempt: from the executor, or from a controller that is not ACTIVE. */
  predicate Produces(w: World, a: Action, c: CallerId, r: RunId, n: nat, result: ExecutionResult) {
    && a.Advance? && a.caller == c && c in w.callers
    && (|| (w.callers[c].pc == Executing(r, n) && a.input.executed == result)
        || (w.callers[c].pc == Attempting(r, n) && !w.tables.controller.Active? && result == BlockedResult(w.tables.controller)))
  }

  ghost predicate Produced(actions: seq<Action>, c: CallerId, r: RunId, n: nat, result: ExecutionResult) {
    exists i :: 0 <= i < |actions| && Produces(Exec(INITIAL, actions[..i]), actions[i], c, r, n, result)
  }

  ghost predicate CallerSourced(actions: seq<Action>, c: CallerId, pc: Pc) {
    pc.Appending? ==> Produced(actions, c, pc.run, pc.number, pc.result)
  }

  ghost predicate AttemptSourced(actions: seq<Action>, k: Core, r: RunId, n: nat) {
    n in Of(k.attempts, r) ==> n in Of(k.attemptBy, r) && Produced(actions, Of(k.attemptBy, r)[n], r, n, Of(k.attempts, r)[n].result)
  }

  ghost predicate Sourced(actions: seq<Action>, w: World) {
    && (forall c :: c in w.callers ==> CallerSourced(actions, c, w.callers[c].pc))
    && (forall r, n :: AttemptSourced(actions, CoreOf(w), r, n))
  }

  lemma ProducedStays(actions: seq<Action>, a: Action, c: CallerId, r: RunId, n: nat, result: ExecutionResult)
    requires Produced(actions, c, r, n, result)
    ensures Produced(actions + [a], c, r, n, result)
  {
    var i :| 0 <= i < |actions| && Produces(Exec(INITIAL, actions[..i]), actions[i], c, r, n, result);
    assert (actions + [a])[..i] == actions[..i] && (actions + [a])[i] == actions[i];
  }

  lemma ProducedNow(actions: seq<Action>, a: Action, c: CallerId, r: RunId, n: nat, result: ExecutionResult)
    requires Produces(Exec(INITIAL, actions), a, c, r, n, result)
    ensures Produced(actions + [a], c, r, n, result)
  {
    assert (actions + [a])[..|actions|] == actions && (actions + [a])[|actions|] == a;
  }

  /** A call comes to append a result only by the step that produced it. */
  lemma ResultIsProduced(w: World, c: CallerId, input: Input)
    requires c in w.callers
    ensures var w1 := AdvanceCaller(w, c, input);
            && w1.callers.Keys == w.callers.Keys
            && (forall o :: o in w.callers && o != c ==> w1.callers[o] == w.callers[o])
            && (var pc := w1.callers[c].pc; pc.Appending? ==> Produces(w, Advance(c, input), c, pc.run, pc.number, pc.result))
  {
    match w.callers[c].pc
    case Claiming =>
    case Appending(_, _, _) =>
    case Finishing(_, _, _) =>
    case Recording(_, _, _) =>
    case _ =>
  }

  /** Only an append writes attempts: the result it carries, under its caller's name. */
  lemma AppendWritesResult(w: World, c: CallerId, input: Input)
    requires c in w.callers
    ensures var k, k1, pc := CoreOf(w), CoreOf(AdvanceCaller(w, c, input)), w.callers[c].pc;
            || (k1.attempts == k.attempts && k1.attemptBy == k.attemptBy)
            || (pc.Appending? && k1.attempts == Put(k.attempts, pc.run, pc.number, AttemptRow(pc.result, input.now))
                && k1.attemptBy == Put(k.attemptBy, pc.run, pc.number, c))
  {
    hide FindRun, ClaimAnswer, Log, Put;
    match w.callers[c].pc
    case Appending(_, _, _) =>
    case Finishing(_, _, _) =>
    case Inserting =>
    case _ => QuietStepShape(w, c, input);
  }

  lemma AdvanceKeepsCallersSourced(actions: seq<Action>, c: CallerId, input: Input, o: CallerId)
    requires var w := Exec(INITIAL, actions);
             c in w.callers && o in w.callers && CallerSourced(actions, o, w.callers[o].pc)
    ensures var w1 := AdvanceCaller(Exec(INITIAL, actions), c, input);
            o in w1.callers && CallerSourced(actions + [Advance(c, input)], o, w1.callers[o].pc)
  {
    var w, a := Exec(INITIAL, actions), Advance(c, input);
    var w1 := AdvanceCaller(w, c, input);
    ResultIsProduced(w, c, input);
    hide Exec, AdvanceCaller, Produced;
    var pc := w1.callers[o].pc;
    if pc.Appending? {
      if o == c { ProducedNow(actions, a, c, pc.run, pc.number, pc.result); }
      else { ProducedStays(actions, a, o, pc.run, pc.number, pc.result); }
    }
  }

  lemma AdvanceKeepsAttemptSourced(actions: seq<Action>, c: CallerId, input: Input, r: RunId, n: nat)
    requires var w := Exec(INITIAL, actions);
             c in w.callers && CallerSourced(actions, c, w.callers[c].pc) && AttemptSourced(actions, CoreOf(w), r, n)
    ensures AttemptSourced(actions + [Advance(c, input)], CoreOf(AdvanceCaller(Exec(INITIAL, actions), c, input)), r, n)
  {
    var w, a := Exec(INITIAL, actions), Advance(c, input);
    var k, k1, pc := CoreOf(w), CoreOf(AdvanceCaller(w, c, input)), w.callers[c].pc;
    AppendWritesResult(w, c, input);
    hide Exec, AdvanceCaller, Produced, CoreOf;
    if n in Of(k1.attempts, r) {
      if k1.attempts == k.attempts && k1.attemptBy == k.attemptBy {
        ProducedStays(actions, a, Of(k.attemptBy, r)[n], r, n, Of(k.attempts, r)[n].result);
      } else if r == pc.run && n == pc.number {
        ProducedStays(actions, a, c, r, n, pc.result);
      } else {
        ProducedStays(actions, a, Of(k.attemptBy, r)[n], r, n, Of(k.attempts, r)[n].result);
      }
    }
  }

  lemma StepKeepsSourced(actions: seq<Action>, a: Action)
    requires Sourced(actions, Exec(INITIAL, actions))
    ensures Sourced(actions + [a], Next(Exec(INITIAL, actions), a))
  {
    var w := Exec(INITIAL, actions);
    var w1 := Next(w, a);
    if a.Advance? && a.caller in w.callers {
      ResultIsProduced(w, a.caller, a.input);
      hide AdvanceCaller, CallerSourced, AttemptSourced, Exec;
      forall o | o in w1.callers ensures CallerSourced(actions + [a], o, w1.callers[o].pc) {
        AdvanceKeepsCallersSourced(actions, a.caller, a.input, o);
      }
      forall r, n ensures AttemptSourced(actions + [a], CoreOf(w1), r, n) {
        AdvanceKeepsAttemptSourced(actions, a.caller, a.input, r, n);
      }
    } else {
      if !a.Advance? { OtherStepShape(w, a); }
      hide Next, Exec, Produced, CoreOf;
      forall o | o in w1.callers ensures CallerSourced(actions + [a], o, w1.callers[o].pc) {
        var pc := w1.callers[o].pc;
        if pc.Appending? {
          assert CallerSourced(actions, o, w.callers[o].pc);
          ProducedStays(actions, a, o, pc.run, pc.number, pc.result);
        }
      }
      var k := CoreOf(w1);
      forall r, n ensures AttemptSourced(actions + [a], k, r, n) {
        assert AttemptSourced(actions, k, r, n);
        if n in Of(k.attempts, r) { ProducedStays(actions, a, Of(k.attemptBy, r)[n], r, n, Of(k.attempts, r)[n].result); }
      }
    }
  }

  lemma {:induction false} ExecIsSourced(actions: seq<Action>)
    ensures Sourced(actions, Exec(INITIAL, actions))
  {
    if actions != [] {
      var front, a := actions[..|actions| - 1], actions[|actions| - 1];
      ExecIsSourced(front);
      StepKeepsSourced(front, a);
      ExecConcat(INITIAL, front, [a]);
      assert front + [a] == actions && Exec(Exec(INITIAL, front), [a]) == Next(Exec(INITIAL, front), a);
    }
  }

  /**
   In every interleaving a stored attempt is what the executor answered its author for that attempt,
   or tells the state of a controller that was not ACTIVE when the author asked.
   */
  lemma AttemptsComeFromExecutor(actions: seq<Action>, r: RunId, n: nat)
    requires n in Of(Exec(INITIAL, actions).tables.attempts, r)
    ensures var w := Exec(INITIAL, actions);
            n in Of(w.history.attemptBy, r) && Produced(actions, Of(w.history.attemptBy, r)[n], r, n, Of(w.tables.attempts, r)[n].result)
  {
    ExecIsSourced(actions);
    hide Produced;
    assert AttemptSourced(actions, CoreOf(Exec(INITIAL, actions)), r, n);
  }

  /** So a run stored as a success was one: the executor answered success to the call that finished it. */
  lemma SuccessIsGenuine(actions: seq<Action>, r: RunId)
    requires var t := Exec(INITIAL, actions).tables; r in t.runs && t.runs[r].state == Finished(Success)
    ensures var w := Exec(INITIAL, actions);
            && r in w.history.finishedBy
            && exists i, n :: 0 <= i < |actions| && actions[i].Advance? && actions[i].caller == w.history.finishedBy[r]
                 && actions[i].caller in Exec(INITIAL, actions[..i]).callers
                 && Exec(INITIAL, actions[..i]).callers[actions[i].caller].pc == Executing(r, n)
                 && w.tables.runs[r].result == Some(actions[i].input.executed)
  {
    SingleOwner(actions, r);
    var w := Exec(INITIAL, actions);
    var n := w.tables.runs[r].attemptCount;
    AttemptsComeFromExecutor(actions, r, n);
    var i :| 0 <= i < |actions| && Produces(Exec(INITIAL, actions[..i]), actions[i], w.history.finishedBy[r], r, n, Of(w.tables.attempts, r)[n].result);
    assert actions[i].caller in Exec(INITIAL, actions[..i]).callers
        && Exec(INITIAL, actions[..i]).callers[actions[i].caller].pc == Executing(r, n);
  }
}
