/** The controller's states over whole runs, and what a stop guarantees about task execution. */
module RunnerStop {
  import opened Common
  import opened TaskTables
  import opened RunnerProtocol
  import opened RunnerOwnership
  import opened RunnerCircuit
  import opened RunnerAdmission

  // ---- the chain of control events ----

  /** The edges each control request can commit. */
  predicate Commits(op: ControlOp, from: ControllerState, next: ControllerState) {
    match op
    case Drain => (next == Draining && from in {Active, Recovering, Degraded}) || (from == Draining && next == Drained)
    case Stop => next == EmergencyStop && from != EmergencyStop
    case ClearStop => from == EmergencyStop && next == Recovering
    case CompleteRecovery => from == Recovering && next == Active
  }

  ghost predicate ChainOk(w: World) {
    IsChain(w.tables.controlEvents, w.history.controlOps, w.tables.controller)
  }

  /** Legal edges from ACTIVE to `state`, each committed by an operation that may commit it. */
  ghost predicate IsChain(events: seq<ControlEvent>, ops: seq<ControlOp>, state: ControllerState) {
    && |ops| == |events|
    && (if events == [] then state == Active else events[0].previous == Active && events[|events| - 1].next == state)
    && (forall i :: 0 < i < |events| ==> events[i - 1].next == events[i].previous)
    && (forall i :: 0 <= i < |events| ==>
          events[i].next in Legal(events[i].previous) && Commits(ops[i], events[i].previous, events[i].next))
    && (forall i :: 0 <= i < |events| ==> Attributed(events[i]))
  }

  /** An event names its actor and reason. */
  predicate Attributed(e: ControlEvent) { e.actor != "" && e.reason != "" }

  ghost predicate ClientsOk(w: World) {
    forall k :: k in w.clients ==>
      && Stripped(w.clients[k].actor) != "" && Stripped(w.clients[k].reason) != ""
      && (w.clients[k].pc.Committing? ==>
            && w.clients[k].pc.next in Legal(w.clients[k].pc.from)
            && Commits(w.clients[k].op, w.clients[k].pc.from, w.clients[k].pc.next))
  }

  ghost predicate ControlOk(w: World) {
    ChainOk(w) && ClientsOk(w)
  }

  lemma ReadingDecidesLegally(op: ControlOp, s: ControllerState)
    ensures AfterReading(op, s).Committing? ==>
              AfterReading(op, s).next in Legal(AfterReading(op, s).from) &&
              Commits(op, AfterReading(op, s).from, AfterReading(op, s).next)
  {
  }

  lemma CommitDecidesLegally(op: ControlOp)
    ensures forall next :: AfterCommit(op, next).Committing? ==>
              AfterCommit(op, next).next in Legal(AfterCommit(op, next).from) &&
              Commits(op, AfterCommit(op, next).from, AfterCommit(op, next).next)
  {
  }

  lemma ChainExtends(events: seq<ControlEvent>, ops: seq<ControlOp>, state: ControllerState, e: ControlEvent, op: ControlOp)
    requires IsChain(events, ops, state) && Attributed(e) && e.previous == state && e.next in Legal(e.previous) && Commits(op, e.previous, e.next)
    ensures IsChain(events + [e], ops + [op], e.next)
  {
    hide Legal, Commits, Attributed;
  }

  lemma ClientStepKeepsControl(w: World, k: ClientId)
    requires ControlOk(w) && k in w.clients
    ensures ControlOk(AdvanceClient(w, k))
  {
    var client := w.clients[k];
    var w1 := AdvanceClient(w, k);
    ReadingDecidesLegally(client.op, w.tables.controller);
    CommitDecidesLegally(client.op);
    if client.pc.Committing? && w.tables.controller == client.pc.from {
      ChainExtends(w.tables.controlEvents, w.history.controlOps, w.tables.controller,
                   ControlEvent(Stripped(client.actor), Stripped(client.reason), client.pc.from, client.pc.next), client.op);
    }
    hide AfterReading, AfterCommit, IsChain, Commits, Legal, Stripped;
    assert IsChain(w1.tables.controlEvents, w1.history.controlOps, w1.tables.controller);
  }

  lemma CallerStepKeepsControl(w: World, c: CallerId, input: Input)
    requires c in w.callers
    ensures var w1 := AdvanceCaller(w, c, input);
            && w1.tables.controller == w.tables.controller && w1.tables.controlEvents == w.tables.controlEvents
            && w1.clients == w.clients && w1.history.controlOps == w.history.controlOps
  {
    match w.callers[c].pc
    case Claiming =>
    case Appending(_, _, _) =>
    case Recording(_, _, _) =>
    case _ =>
  }

  lemma StepKeepsControl(w: World, a: Action)
    requires ControlOk(w)
    ensures ControlOk(Next(w, a))
  {
    match a
    case Advance(c, input) => if c in w.callers { CallerStepKeepsControl(w, c, input); }
    case AdvanceControl(k) => if k in w.clients { ClientStepKeepsControl(w, k); }
    case _ =>
  }

  lemma {:induction false} ExecKeepsControl(w: World, actions: seq<Action>)
    requires ControlOk(w)
    ensures ControlOk(Exec(w, actions))
    decreases |actions|
  {
    if actions != [] {
      StepKeepsControl(w, actions[0]);
      ExecKeepsControl(Next(w, actions[0]), actions[1..]);
    }
  }

  /**
   In every interleaving the control events are a chain of legal edges from ACTIVE to the stored
   state, each committed by a request of the kind that may commit it and naming who asked and why,
   even while a drain's two transactions race with other requests.
   */
  lemma ControlEventsAreALegalChain(actions: seq<Action>)
    ensures var w := Exec(INITIAL, actions);
            var events, ops := w.tables.controlEvents, w.history.controlOps;
            && |ops| == |events|
            && (events == [] ==> w.tables.controller == Active)
            && (events != [] ==> events[0].previous == Active && events[|events| - 1].next == w.tables.controller)
            && (forall i :: 0 < i < |events| ==> events[i - 1].next == events[i].previous)
            && (forall i :: 0 <= i < |events| ==>
                  events[i].next in Legal(events[i].previous) && Commits(ops[i], events[i].previous, events[i].next))
            && (forall i :: 0 <= i < |events| ==> Attributed(events[i]))
  {
    ExecKeepsControl(INITIAL, actions);
  }

  /** A stop is left by clearing it and undone only by completing the recovery, in that order. */
  lemma ReturnFromStopNeedsClearThenRecovery(actions: seq<Action>, i: nat, j: nat)
    requires var events := Exec(INITIAL, actions).tables.controlEvents;
             i <= j < |events| && events[i].previous == EmergencyStop && events[j].next == Active
    ensures var ops := Exec(INITIAL, actions).history.controlOps;
            i < j < |ops| && ops[i] == ClearStop && ops[j] == CompleteRecovery
  {
    ExecKeepsControl(INITIAL, actions);
    var w := Exec(INITIAL, actions);
    assert Commits(w.history.controlOps[i], w.tables.controlEvents[i].previous, w.tables.controlEvents[i].next);
    assert Commits(w.history.controlOps[j], w.tables.controlEvents[j].previous, w.tables.controlEvents[j].next);
  }

  lemma {:induction false} NeverDegraded(events: seq<ControlEvent>, ops: seq<ControlOp>)
    requires |ops| == |events|
    requires events != [] ==> events[0].previous == Active
    requires forall i :: 0 < i < |events| ==> events[i - 1].next == events[i].previous
    requires forall i :: 0 <= i < |events| ==> Commits(ops[i], events[i].previous, events[i].next)
    ensures forall i :: 0 <= i < |events| ==> events[i].next != Degraded
  {
  }

  /**
   The transition table allows more than the requests can commit: DEGRADED is never entered, and a
   drained controller is left only by an emergency stop.
   */
  lemma UnusedEdges(actions: seq<Action>)
    ensures var w := Exec(INITIAL, actions);
            && w.tables.controller != Degraded
            && forall i :: 0 <= i < |w.tables.controlEvents| && w.tables.controlEvents[i].previous == Drained ==>
                 i < |w.history.controlOps| && w.history.controlOps[i] == Stop && w.tables.controlEvents[i].next == EmergencyStop
  {
    ExecKeepsControl(INITIAL, actions);
    var w := Exec(INITIAL, actions);
    NeverDegraded(w.tables.controlEvents, w.history.controlOps);
  }

  // ---- a stop and the executor ----

  /** Executor calls made by `c`, and the one it may still make without reading the state again. */
  function Committed(w: World, p: ProjectId, c: CallerId): nat {
    StartsBy(Log(w, p), c) + (if c in w.callers && w.callers[c].pc.Cleared? then 1 else 0)
  }

  lemma InactiveStepStartsNothingNew(w: World, d: CallerId, input: Input, p: ProjectId, c: CallerId)
    requires d in w.callers && !w.tables.controller.Active?
    ensures Committed(AdvanceCaller(w, d, input), p, c) <= Committed(w, p, c)
  {
    hide AdvanceCaller, Log, StartsBy, RowAt, ClaimAnswer, RecordFailure;
    AdvanceCircuitShape(w, d, input, p);
    var log, log1 := Log(w, p), Log(AdvanceCaller(w, d, input), p);
    if log1 != log { StartsBySnoc(log, log1[|log1| - 1], c); }
    NotClearedWhileInactive(w, d, input);
    if c != d { AdvancePcOnlyMoves(w, d, input, c); }
  }

  /** No step leads past the gate while the controller is not ACTIVE. */
  lemma NotClearedWhileInactive(w: World, d: CallerId, input: Input)
    requires d in w.callers && !w.tables.controller.Active?
    ensures d in AdvanceCaller(w, d, input).callers
    ensures !AdvanceCaller(w, d, input).callers[d].pc.Cleared?
  {
    hide FindRun, InsertRun, AppendAttempt, FinishRun, ClaimAnswer, ClaimCircuit, RecordFailure, RecordSuccess, Log, Put;
    match w.callers[d].pc
    case Claiming =>
    case Appending(_, _, _) =>
    case Finishing(_, _, _) =>
    case _ =>
  }

  lemma OnlyRecoveryActivates(w: World, a: Action)
    requires ControlOk(w) && !w.tables.controller.Active?
    ensures w.history.controlOps <= Next(w, a).history.controlOps
    ensures Next(w, a).tables.controller.Active? ==>
              Next(w, a).history.controlOps == w.history.controlOps + [CompleteRecovery]
  {
    match a
    case Advance(c, input) => if c in w.callers { CallerStepKeepsControl(w, c, input); }
    case _ =>
  }

  /** The control requests committed on the way from `w` to `w1`. */
  function CommittedOps(w: World, w1: World): seq<ControlOp> {
    if |w.history.controlOps| <= |w1.history.controlOps| then w1.history.controlOps[|w.history.controlOps|..] else []
  }

  lemma {:induction false} OpsOnlyGrow(w: World, actions: seq<Action>)
    ensures w.history.controlOps <= Exec(w, actions).history.controlOps
    decreases |actions|
  {
    if actions != [] {
      var a := actions[0];
      if a.Advance? && a.caller in w.callers { CallerStepKeepsControl(w, a.caller, a.input); }
      assert w.history.controlOps <= Next(w, a).history.controlOps;
      OpsOnlyGrow(Next(w, a), actions[1..]);
    }
  }

  lemma AbsentFromLaterOps(ops: seq<ControlOp>, n: nat, m: nat, op: ControlOp)
    requires n <= m <= |ops| && op !in ops[n..]
    ensures op !in ops[m..]
    ensures n < m ==> ops[n] != op
  {
    assert ops[m..] == ops[n..][m - n..];
    assert n < m ==> ops[n] == ops[n..][0];
  }

  lemma {:induction false} StoppedRunStartsNothingNew(w: World, actions: seq<Action>, p: ProjectId, c: CallerId)
    requires ControlOk(w) && !w.tables.controller.Active?
    requires CompleteRecovery !in CommittedOps(w, Exec(w, actions))
    ensures Committed(Exec(w, actions), p, c) <= Committed(w, p, c)
    decreases |actions|
  {
    if actions != [] {
      var a, rest := actions[0], actions[1..];
      var w1 := Next(w, a);
      StepKeepsControl(w, a);
      OnlyRecoveryActivates(w, a);
      OpsOnlyGrow(w1, rest);
      AbsentFromLaterOps(Exec(w1, rest).history.controlOps, |w.history.controlOps|, |w1.history.controlOps|, CompleteRecovery);
      StepStartsNothingNew(w, a, p, c);
      StoppedRunStartsNothingNew(w1, rest, p, c);
    }
  }

  lemma StepStartsNothingNew(w: World, a: Action, p: ProjectId, c: CallerId)
    requires !w.tables.controller.Active?
    ensures Committed(Next(w, a), p, c) <= Committed(w, p, c)
  {
    if !a.Advance? {
      OtherStepShape(w, a);
      OtherStepCircuitShape(w, a, p);
    } else if a.caller in w.callers {
      InactiveStepStartsNothingNew(w, a.caller, a.input, p, c);
    }
  }

  /**
   Stop safety: from any moment at which the controller is not ACTIVE until a complete-recovery
   commits, a call starts the executor at most once more, and not at all unless it had already
   read ACTIVE for its next attempt. A call that has not started by then executes nothing.
   */
  lemma StopBoundsExecutorStarts(before: seq<Action>, after: seq<Action>, p: ProjectId, c: CallerId)
    requires !Exec(INITIAL, before).tables.controller.Active?
    requires CompleteRecovery !in CommittedOps(Exec(INITIAL, before), Exec(INITIAL, before + after))
    ensures var w, w2 := Exec(INITIAL, before), Exec(INITIAL, before + after);
            StartsBy(Log(w2, p), c) <= StartsBy(Log(w, p), c) + (if c in w.callers && w.callers[c].pc.Cleared? then 1 else 0)
  {
    ExecKeepsControl(INITIAL, before);
    ExecConcat(INITIAL, before, after);
    StoppedRunStartsNothingNew(Exec(INITIAL, before), after, p, c);
  }
}
