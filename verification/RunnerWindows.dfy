/**
 How much the runner admits while nothing succeeds: a window of length T admits at most
 threshold + T / cooldown calls of a project, and one more for each call lost on the way.
 */
module RunnerWindows {
  import opened Common
  import opened TaskTables
  import opened RunnerProtocol
  import opened RunnerOwnership
  import opened RunnerCircuit
  import opened RunnerAdmission

  function Starts(log: seq<CircuitEntry>): nat {
    if log == [] then 0 else (if log[0].Started? then 1 else 0) + Starts(log[1..])
  }

  function Admissions(log: seq<CircuitEntry>): nat {
    if log == [] then 0 else (if log[0].Admitted? then 1 else 0) + Admissions(log[1..])
  }

  // ---- histories ----

  /** Where a sequential history stands: between calls, or with one that was admitted last. */
  datatype Phase = Idle | InCall(caller: CallerId)

  /** Admitted calls do not overlap: only the one admitted last starts the executor or records. It may also be lost. */
  predicate Sequential(log: seq<CircuitEntry>, phase: Phase) {
    log == [] ||
    match log[0]
    case Admitted(c, _, _) => Sequential(log[1..], InCall(c))
    case Started(c) => phase == InCall(c) && Sequential(log[1..], phase)
    case Recorded(c, _, _, _) => phase == InCall(c) && Sequential(log[1..], Idle)
  }

  /**
   How many calls admitted while the circuit was closed were followed by another admission instead of
   their record; `pending` says that such a call came last before.
   */
  function Superseded(log: seq<CircuitEntry>, pending: bool): nat {
    if log == [] then 0
    else match log[0]
      case Admitted(_, _, probe) => (if pending then 1 else 0) + Superseded(log[1..], !probe)
      case Started(_) => Superseded(log[1..], pending)
      case Recorded(_, _, _, _) => Superseded(log[1..], false)
  }

  /** The clock readings of a window do not decrease and lie in `[from, to]`, and no record is a success. */
  predicate FailingWindow(log: seq<CircuitEntry>, from: int, to: int) {
    from <= to &&
    (log == [] ||
     match log[0]
     case Admitted(_, at, _) => from <= at <= to && FailingWindow(log[1..], at, to)
     case Started(_) => FailingWindow(log[1..], from, to)
     case Recorded(_, _, success, at) => !success && from <= at <= to && FailingWindow(log[1..], at, to))
  }

  /** What may still be admitted, given the failures so far and whether the last record is inside the window. */
  function Budget(phase: Phase, failures: nat, recent: bool, policy: Policy, from: int, to: int): int
    requires policy.cooldown >= 1
  {
    var spare := Max(0, policy.threshold - failures);
    var probes := (to - from) / policy.cooldown;
    match phase
    case InCall(_) => Max(0, spare - 1) + probes
    case Idle => if spare > 0 then spare + probes else if recent then probes else 1 + probes
  }

  lemma {:induction false} ProductGap(d: nat, p: int, q: int)
    ensures q > p ==> d * q >= d * p + d
    decreases if q > p then q - p else 0
  {
    if q > p {
      assert d * q == d * (q - 1) + d;
      if q - 1 > p { ProductGap(d, p, q - 1); }
    }
  }

  lemma DivisionIsMonotone(a: int, b: int, d: nat)
    requires d >= 1 && a <= b
    ensures a / d <= b / d
  {
    ProductGap(d, b / d, a / d);
    assert a == d * (a / d) + a % d && b == d * (b / d) + b % d;
  }

  lemma DivisionShifts(a: int, d: nat)
    requires d >= 1
    ensures (a + d) / d == a / d + 1
  {
    var q := a / d;
    assert a == d * q + a % d && a + d == d * ((a + d) / d) + (a + d) % d;
    ProductGap(d, q + 1, (a + d) / d);
    ProductGap(d, (a + d) / d, q + 1);
    assert d * (q + 1) == d * q + d;
  }

  lemma CooldownCostsOneProbe(from: int, at: int, to: int, cooldown: nat)
    requires cooldown >= 1 && from + cooldown <= at <= to
    ensures (to - at) / cooldown + 1 <= (to - from) / cooldown
  {
    DivisionShifts(to - at, cooldown);
    DivisionIsMonotone(to - at + cooldown, to - from, cooldown);
  }

  /** The bound on a history: the budget, and one admission for each closed call that was superseded. A lost probe ends admissions. */
  lemma {:induction false} WindowWithinBudget(past: seq<CircuitEntry>, window: seq<CircuitEntry>, policy: Policy,
                                              phase: Phase, pending: bool, recent: bool, from: int, to: int)
    requires policy.cooldown >= 1
    requires AdmissionLaw(past + window, policy) && Sequential(window, phase) && FailingWindow(window, from, to)
    requires recent && phase.Idle? ==> LastRecordAt(past) == Some(from)
    requires if phase.Idle? then !pending else pending || (ProbeOut(past) && Open(past, policy))
    ensures Admissions(window) <= Budget(phase, FailuresSince(past), recent, policy, from, to) + Superseded(window, pending)
    decreases |window|
  {
    if window != [] {
      var entry, rest := window[0], window[1..];
      var past1 := past + [entry];
      assert past + window == past1 + rest;
      assert past1[..|past1| - 1] == past;
      match entry
      case Admitted(c, at, probe) =>
        assert (past + window)[..|past|] == past && (past + window)[|past|] == entry;
        assert Admissible(past, policy, at, probe);
        WindowWithinBudget(past1, rest, policy, InCall(c), !probe, recent, at, to);
        DivisionIsMonotone(to - at, to - from, policy.cooldown);
        if phase.Idle? && Open(past, policy) && recent { CooldownCostsOneProbe(from, at, to, policy.cooldown); }
      case Started(c) =>
        WindowWithinBudget(past1, rest, policy, phase, pending, recent, from, to);
      case Recorded(c, run, success, at) =>
        WindowWithinBudget(past1, rest, policy, Idle, false, true, at, to);
        DivisionIsMonotone(to - at, to - from, policy.cooldown);
    } else {
      DivisionIsMonotone(0, to - from, policy.cooldown);
    }
  }

  lemma {:induction false} StartsPerAdmission(window: seq<CircuitEntry>, phase: Phase, used: nat)
    requires Sequential(window, phase) && used <= 3
    requires forall c :: StartsIn(window, c) <= 3 - (if phase == InCall(c) then used else 0)
    ensures Starts(window) <= 3 * Admissions(window) + (if phase.Idle? then 0 else 3 - used)
    decreases |window|
  {
    if window != [] {
      match window[0]
      case Admitted(c, _, _) => StartsPerAdmission(window[1..], InCall(c), 0);
      case Started(c) =>
        assert StartsIn(window, c) <= 3 - used;
        StartsPerAdmission(window[1..], phase, used + 1);
      case Recorded(c, _, _, _) => StartsPerAdmission(window[1..], Idle, 0);
    }
  }

  /** `StartsBy`, read from the front. */
  function StartsIn(log: seq<CircuitEntry>, c: CallerId): nat {
    if log == [] then 0 else (if log[0] == Started(c) then 1 else 0) + StartsIn(log[1..], c)
  }

  lemma {:induction false} StartsInSuffix(past: seq<CircuitEntry>, window: seq<CircuitEntry>, c: CallerId)
    ensures StartsIn(window, c) <= StartsIn(past + window, c)
    decreases |past|
  {
    if past == [] {
      assert past + window == window;
    } else {
      assert (past + window)[1..] == past[1..] + window;
      StartsInSuffix(past[1..], window, c);
    }
  }

  lemma {:induction false} StartsInSnoc(log: seq<CircuitEntry>, entry: CircuitEntry, c: CallerId)
    ensures StartsIn(log + [entry], c) == StartsIn(log, c) + (if entry == Started(c) then 1 else 0)
    decreases |log|
  {
    if log == [] {
      assert log + [entry] == [entry];
    } else {
      assert (log + [entry])[1..] == log[1..] + [entry];
      StartsInSnoc(log[1..], entry, c);
    }
  }

  lemma {:induction false} StartsInIsStartsBy(log: seq<CircuitEntry>, c: CallerId)
    ensures StartsIn(log, c) == StartsBy(log, c)
    decreases |log|
  {
    if log != [] {
      var init := log[..|log| - 1];
      assert log == init + [log[|log| - 1]];
      StartsInSnoc(init, log[|log| - 1], c);
      StartsInIsStartsBy(init, c);
    }
  }

  // ---- steps and what they add to a history ----

  /** What a step adds to the project's history. */
  function NewEntries(w: World, a: Action, p: ProjectId): seq<CircuitEntry> {
    if !a.Advance? || a.caller !in w.callers || w.callers[a.caller].call.key.project != p then []
    else
      var call, now := w.callers[a.caller].call, a.input.now;
      match w.callers[a.caller].pc
      case Claiming =>
        (match ClaimAnswer(w.tables, p, call.threshold, call.cooldown, now)
         case Granted(probe) => [Admitted(a.caller, now, probe)]
         case _ => [])
      case Cleared(_, _) => [Started(a.caller)]
      case Recording(run, result, _) => [Recorded(a.caller, run, result.classification.Success?, now)]
      case _ => []
  }

  lemma StepAdds(w: World, a: Action, p: ProjectId)
    ensures Log(Next(w, a), p) == Log(w, p) + NewEntries(w, a, p)
  {
    if a.Advance? {
      if a.caller in w.callers { AdvanceCircuitShape(w, a.caller, a.input, p); }
    } else {
      OtherStepCircuitShape(w, a, p);
    }
  }

  /** What a run adds to the project's history. */
  function Added(w: World, actions: seq<Action>, p: ProjectId): seq<CircuitEntry>
    decreases |actions|
  {
    if actions == [] then [] else NewEntries(w, actions[0], p) + Added(Next(w, actions[0]), actions[1..], p)
  }

  lemma {:induction false} ExecAdds(w: World, actions: seq<Action>, p: ProjectId)
    ensures Log(Exec(w, actions), p) == Log(w, p) + Added(w, actions, p)
    decreases |actions|
  {
    if actions != [] {
      StepAdds(w, actions[0], p);
      hide Next, NewEntries;
      ExecAdds(Next(w, actions[0]), actions[1..], p);
    }
  }

  /** A step makes a call live only by admitting it, and leaves it live while it starts, until it records. */
  lemma StepLive(w: World, a: Action, p: ProjectId, o: CallerId)
    ensures var entries := NewEntries(w, a, p);
            && |entries| <= 1
            && (Live(Next(w, a), p, o) && !Live(w, p, o) ==> entries != [] && entries[0].Admitted? && entries[0].caller == o)
            && (entries != [] && entries[0].caller == o ==> (Live(w, p, o) <==> !entries[0].Admitted?))
            && (entries != [] && entries[0].caller == o ==> (Live(Next(w, a), p, o) <==> !entries[0].Recorded?))
  {
    if a.Advance? {
      if a.caller in w.callers {
        if o != a.caller {
          AdvancePcOnlyMoves(w, a.caller, a.input, o);
        } else {
          OwnStepLive(w, o, a.input, p);
        }
      }
    } else {
      OtherStepShape(w, a);
    }
  }

  lemma OwnStepLive(w: World, c: CallerId, input: Input, p: ProjectId)
    requires c in w.callers
    ensures var entries, w1 := NewEntries(w, Advance(c, input), p), AdvanceCaller(w, c, input);
            && (Live(w1, p, c) && !Live(w, p, c) ==> entries != [] && entries[0].Admitted?)
            && (entries != [] ==> entries[0].caller == c && (Live(w, p, c) <==> !entries[0].Admitted?))
            && (entries != [] ==> (Live(w1, p, c) <==> !entries[0].Recorded?))
  {
    match w.callers[c].pc
    case Claiming =>
    case Cleared(_, _) =>
    case Recording(_, _, _) =>
    case Finishing(_, _, _) =>
    case Appending(_, _, _) =>
    case _ =>
  }

  // ---- runs ----

  predicate Admits(w: World, a: Action, p: ProjectId) {
    NewEntries(w, a, p) != [] && NewEntries(w, a, p)[0].Admitted?
  }

  /** Admitted calls of the project do not overlap: each claim is granted when no admitted call is live. */
  ghost predicate NoOverlap(w: World, actions: seq<Action>, p: ProjectId)
    decreases |actions|
  {
    actions != [] ==>
      && (Admits(w, actions[0], p) ==> forall o :: !Live(w, p, o))
      && NoOverlap(Next(w, actions[0]), actions[1..], p)
  }

  /** The step of a call of the project that claims or records, and so reads the clock for the circuit. */
  predicate ReadsClock(w: World, a: Action, p: ProjectId) {
    a.Advance? && a.caller in w.callers && w.callers[a.caller].call.key.project == p
    && (w.callers[a.caller].pc.Claiming? || w.callers[a.caller].pc.Recording?)
  }

  /** The project's claims and records read a clock that does not go back and stays in `[from, to]`, and none records a success. */
  ghost predicate Failing(w: World, actions: seq<Action>, p: ProjectId, from: int, to: int)
    decreases |actions|
  {
    from <= to &&
    (actions != [] ==>
      var a, w1 := actions[0], Next(w, actions[0]);
      if ReadsClock(w, a, p) then
        && from <= a.input.now <= to
        && (w.callers[a.caller].pc.Recording? ==> !w.callers[a.caller].pc.result.classification.Success?)
        && Failing(w1, actions[1..], p, a.input.now, to)
      else Failing(w1, actions[1..], p, from, to))
  }

  /** An admitted call ends without a record, and it was no probe. */
  predicate Loses(w: World, a: Action, p: ProjectId) {
    && (a.Advance? || a.Crash?)
    && Live(w, p, a.caller) && !Live(Next(w, a), p, a.caller)
    && NewEntries(w, a, p) == [] && !ProbeOut(Log(w, p))
  }

  function Lost(w: World, actions: seq<Action>, p: ProjectId): nat
    decreases |actions|
  {
    if actions == [] then 0 else (if Loses(w, actions[0], p) then 1 else 0) + Lost(Next(w, actions[0]), actions[1..], p)
  }

  ghost predicate InPhase(w: World, p: ProjectId, phase: Phase) {
    forall o :: Live(w, p, o) ==> phase == InCall(o)
  }

  function PhaseAfter(phase: Phase, entries: seq<CircuitEntry>): Phase {
    if entries == [] then phase
    else match entries[0]
      case Admitted(c, _, _) => InCall(c)
      case Started(_) => phase
      case Recorded(_, _, _, _) => Idle
  }

  lemma StepKeepsPhase(w: World, a: Action, p: ProjectId, phase: Phase)
    requires InPhase(w, p, phase) && (Admits(w, a, p) ==> forall o :: !Live(w, p, o))
    ensures InPhase(Next(w, a), p, PhaseAfter(phase, NewEntries(w, a, p)))
    ensures var entries := NewEntries(w, a, p); entries != [] && !entries[0].Admitted? ==> phase == InCall(entries[0].caller)
  {
    var entries := NewEntries(w, a, p);
    if entries != [] { StepLive(w, a, p, entries[0].caller); }
    forall o | Live(Next(w, a), p, o)
      ensures PhaseAfter(phase, entries) == InCall(o)
    {
      StepLive(w, a, p, o);
    }
  }

  lemma SequentialPrepend(entries: seq<CircuitEntry>, rest: seq<CircuitEntry>, phase: Phase)
    requires |entries| <= 1 && Sequential(rest, PhaseAfter(phase, entries))
    requires entries != [] && !entries[0].Admitted? ==> phase == InCall(entries[0].caller)
    ensures Sequential(entries + rest, phase)
  {
    if entries == [] {
      assert entries + rest == rest;
    } else {
      assert (entries + rest)[0] == entries[0] && (entries + rest)[1..] == rest;
    }
  }

  lemma {:induction false} AddedIsSequential(w: World, actions: seq<Action>, p: ProjectId, phase: Phase)
    requires NoOverlap(w, actions, p) && InPhase(w, p, phase)
    ensures Sequential(Added(w, actions, p), phase)
    decreases |actions|
  {
    if actions != [] {
      hide Next, NewEntries, InPhase, Live, Admits, Sequential, PhaseAfter;
      var a := actions[0];
      var entries, rest := NewEntries(w, a, p), Added(Next(w, a), actions[1..], p);
      StepKeepsPhase(w, a, p, phase);
      StepLive(w, a, p, 0);
      AddedIsSequential(Next(w, a), actions[1..], p, PhaseAfter(phase, entries));
      SequentialPrepend(entries, rest, phase);
    }
  }

  lemma {:induction false} WindowMayStartEarlier(log: seq<CircuitEntry>, earlier: int, from: int, to: int)
    requires FailingWindow(log, from, to) && earlier <= from
    ensures FailingWindow(log, earlier, to)
    decreases |log|
  {
    if log != [] && log[0].Started? { WindowMayStartEarlier(log[1..], earlier, from, to); }
  }

  lemma EntriesReadClock(w: World, a: Action, p: ProjectId)
    ensures var entries := NewEntries(w, a, p);
            entries == [] || entries[0].Started? ||
            (&& ReadsClock(w, a, p) && entries[0].at == a.input.now && |entries| == 1
             && (entries[0].Recorded? ==>
                   w.callers[a.caller].pc.Recording? && entries[0].success == w.callers[a.caller].pc.result.classification.Success?))
    ensures NewEntries(w, a, p) != [] && NewEntries(w, a, p)[0].Started? ==> !ReadsClock(w, a, p) && |NewEntries(w, a, p)| == 1
  {
  }

  lemma {:induction false} AddedIsFailing(w: World, actions: seq<Action>, p: ProjectId, from: int, to: int)
    requires Failing(w, actions, p, from, to)
    ensures FailingWindow(Added(w, actions, p), from, to)
    decreases |actions|
  {
    if actions != [] {
      var a := actions[0];
      var entries, rest := NewEntries(w, a, p), Added(Next(w, a), actions[1..], p);
      var next := if ReadsClock(w, a, p) then a.input.now else from;
      EntriesReadClock(w, a, p);
      hide Next, NewEntries;
      AddedIsFailing(Next(w, a), actions[1..], p, next, to);
      WindowMayStartEarlier(rest, from, next, to);
      assert entries != [] ==> (entries + rest)[0] == entries[0] && (entries + rest)[1..] == rest;
      assert entries == [] ==> entries + rest == rest;
    }
  }

  /** A pending call that is no longer live was lost before. */
  ghost function Missing(w: World, p: ProjectId, phase: Phase, pending: bool): nat {
    if pending && phase.InCall? && !Live(w, p, phase.caller) then 1 else 0
  }

  function PendingAfter(pending: bool, entries: seq<CircuitEntry>): bool {
    if entries == [] then pending
    else match entries[0]
      case Admitted(_, _, probe) => !probe
      case Started(_) => pending
      case Recorded(_, _, _, _) => false
  }

  lemma StepKeepsPending(w: World, a: Action, p: ProjectId, policy: Policy, phase: Phase, pending: bool)
    requires CircuitOk(w, p, policy) && InPhase(w, p, phase) && (Admits(w, a, p) ==> forall o :: !Live(w, p, o))
    requires pending ==> phase.InCall? && !ProbeOut(Log(w, p))
    ensures var entries := NewEntries(w, a, p);
            var phase1, pending1 := PhaseAfter(phase, entries), PendingAfter(pending, entries);
            && (pending1 ==> phase1.InCall? && !ProbeOut(Log(Next(w, a), p)))
            && (if Admits(w, a, p) && pending then 1 else 0) + Missing(Next(w, a), p, phase1, pending1)
               <= Missing(w, p, phase, pending) + (if Loses(w, a, p) then 1 else 0)
  {
    hide Next, NewEntries, Live, InPhase, CircuitOk, Log, ProbeOut, Loses;
    var entries := NewEntries(w, a, p);
    StepAdds(w, a, p);
    StepKeepsPhase(w, a, p, phase);
    if entries == [] {
      assert Log(w, p) + [] == Log(w, p);
      if pending { PendingStays(w, a, p, phase.caller); }
    } else {
      StepLive(w, a, p, entries[0].caller);
      assert entries == [entries[0]];
      ProbeOutSnoc(Log(w, p), entries[0]);
      if entries[0].Admitted? { AdmittedByLaw(w, a, p, policy); }
    }
  }

  lemma ProbeOutSnoc(log: seq<CircuitEntry>, entry: CircuitEntry)
    ensures ProbeOut(log + [entry]) == match entry
                                       case Recorded(_, _, _, _) => false
                                       case Admitted(_, _, probe) => probe || ProbeOut(log)
                                       case Started(_) => ProbeOut(log)
  {
    assert (log + [entry])[..|log|] == log;
  }

  lemma AdmittedByLaw(w: World, a: Action, p: ProjectId, policy: Policy)
    requires CircuitOk(w, p, policy) && Admits(w, a, p)
    ensures !NewEntries(w, a, p)[0].probe ==> !ProbeOut(Log(w, p))
  {
    ClaimFollowsHistory(w, p, policy, a.input.now);
  }

  lemma PendingStays(w: World, a: Action, p: ProjectId, c: CallerId)
    requires NewEntries(w, a, p) == [] && !ProbeOut(Log(w, p))
    ensures Live(w, p, c) && !Live(Next(w, a), p, c) ==> Loses(w, a, p)
  {
    if a.Advance? {
      if a.caller in w.callers && a.caller != c { AdvancePcOnlyMoves(w, a.caller, a.input, c); }
    } else {
      OtherStepShape(w, a);
    }
  }

  lemma {:induction false} SupersededWereLost(w: World, actions: seq<Action>, p: ProjectId, policy: Policy, phase: Phase, pending: bool)
    requires CircuitOk(w, p, policy) && forall a :: a in actions ==> Follows(a, p, policy)
    requires NoOverlap(w, actions, p) && InPhase(w, p, phase)
    requires pending ==> phase.InCall? && !ProbeOut(Log(w, p))
    ensures Superseded(Added(w, actions, p), pending) <= Missing(w, p, phase, pending) + Lost(w, actions, p)
    decreases |actions|
  {
    if actions != [] {
      var a := actions[0];
      var entries, rest := NewEntries(w, a, p), Added(Next(w, a), actions[1..], p);
      assert Follows(a, p, policy);
      StepKeepsPhase(w, a, p, phase);
      StepKeepsPending(w, a, p, policy, phase, pending);
      StepKeepsCircuit(w, a, p, policy);
      StepLive(w, a, p, 0);
      hide Next, NewEntries, InPhase, CircuitOk, Missing, Loses, ProbeOut, Follows;
      SupersededWereLost(Next(w, a), actions[1..], p, policy, PhaseAfter(phase, entries), PendingAfter(pending, entries));
      assert entries != [] ==> (entries + rest)[0] == entries[0] && (entries + rest)[1..] == rest;
      assert entries == [] ==> entries + rest == rest;
    }
  }

  /** Every executor call of the history is within its call's three. */
  lemma AddedStarts(before: seq<Action>, during: seq<Action>, p: ProjectId, c: CallerId)
    ensures StartsIn(Added(Exec(INITIAL, before), during, p), c) <= 3
  {
    var w := Exec(INITIAL, before);
    var window := Added(w, during, p);
    StartsWithinMaxAttempts(before + during, p, c);
    hide Exec, Added, Log;
    ExecConcat(INITIAL, before, during);
    ExecAdds(w, during, p);
    StartsInIsStartsBy(Log(w, p) + window, c);
    StartsInSuffix(Log(w, p), window, c);
  }

  lemma BoundFrom(w: World, during: seq<Action>, p: ProjectId, policy: Policy, phase: Phase, pending: bool, from: int, to: int)
    requires policy.cooldown >= 1 && CircuitOk(w, p, policy) && forall a :: a in during ==> Follows(a, p, policy)
    requires NoOverlap(w, during, p) && Failing(w, during, p, from, to) && InPhase(w, p, phase)
    requires AdmissionLaw(Log(w, p) + Added(w, during, p), policy)
    requires phase.InCall? ==> Live(w, p, phase.caller)
    requires pending <==> phase.InCall? && !ProbeOut(Log(w, p))
    ensures Admissions(Added(w, during, p)) <= policy.threshold + (to - from) / policy.cooldown + Lost(w, during, p)
    ensures Sequential(Added(w, during, p), phase)
  {
    var past, window := Log(w, p), Added(w, during, p);
    AddedIsSequential(w, during, p, phase);
    AddedIsFailing(w, during, p, from, to);
    SupersededWereLost(w, during, p, policy, phase, pending);
    hide Added, Live, NoOverlap, Failing, Log, Sequential, FailingWindow, Lost, Superseded, AdmissionLaw, Admissions;
    WindowWithinBudget(past, window, policy, phase, pending, false, from, to);
    DivisionIsMonotone(0, to - from, policy.cooldown);
  }

  /**
   The admission bound. In a stretch of a run in which admitted calls of a project do not overlap, none
   of its runs is recorded as a success and its clock readings span T, at most threshold + T / cooldown
   calls are admitted, and one more for each call that was admitted while the circuit was closed and
   ended without a record. They start the executor at most three times as often.
   */
  lemma FailingWindowAdmits(before: seq<Action>, during: seq<Action>, p: ProjectId, policy: Policy, from: int, to: int)
    requires policy.threshold >= 1 && policy.cooldown >= 1
    requires forall a :: a in before + during ==> Follows(a, p, policy)
    requires forall c, d :: Live(Exec(INITIAL, before), p, c) && Live(Exec(INITIAL, before), p, d) ==> c == d
    requires NoOverlap(Exec(INITIAL, before), during, p) && Failing(Exec(INITIAL, before), during, p, from, to)
    ensures var w := Exec(INITIAL, before);
            var window := Added(w, during, p);
            && Log(Exec(INITIAL, before + during), p) == Log(w, p) + window
            && Admissions(window) <= policy.threshold + (to - from) / policy.cooldown + Lost(w, during, p)
            && Starts(window) <= 3 * Admissions(window) + (if exists c :: Live(w, p, c) then 3 else 0)
  {
    hide Added, Next, Live, NoOverlap, Failing, Follows;
    assert forall a :: a in before ==> a in before + during;
    assert forall a :: a in during ==> a in before + during;
    ExecKeepsCircuit(INITIAL, before, p, policy);
    var w := Exec(INITIAL, before);
    var past, window := Log(w, p), Added(w, during, p);
    ExecConcat(INITIAL, before, during);
    ExecAdds(w, during, p);
    CircuitRefinesBreaker(before + during, p, policy);
    forall c ensures StartsIn(window, c) <= 3 { AddedStarts(before, during, p, c); }
    hide Exec, Log, AdmissionLaw, CircuitOk;
    var phase := if c :| Live(w, p, c) then InCall(c) else Idle;
    var pending := phase.InCall? && !ProbeOut(past);
    BoundFrom(w, during, p, policy, phase, pending, from, to);
    StartsPerAdmission(window, phase, 0);
  }

  // ---- which calls are lost ----

  predicate Over(pc: Pc) { pc.Returned? || pc.Refused? || pc.Dead? }

  /** A call of the project under way. */
  predicate Active(w: World, p: ProjectId, c: CallerId) {
    c in w.callers && w.callers[c].call.key.project == p && !Over(w.callers[c].pc)
  }

  /** Another call of the project is under way. */
  ghost predicate Busy(w: World, p: ProjectId, c: CallerId) {
    exists d :: d != c && Active(w, p, d)
  }

  /** One step of a run whose requests to the project come one by one, each with a run id of its own. */
  ghost predicate StepOneByOne(w: World, a: Action, p: ProjectId) {
    && (a.StartCall? && a.call.key.project == p ==> !Busy(w, p, a.caller))
    && (a.Advance? && a.caller in w.callers && w.callers[a.caller].call.key.project == p && w.callers[a.caller].pc.Inserting? ==>
          a.input.newId !in w.tables.runs)
  }

  ghost predicate OneByOne(w: World, actions: seq<Action>, p: ProjectId)
    decreases |actions|
  {
    actions != [] ==> StepOneByOne(w, actions[0], p) && OneByOne(Next(w, actions[0]), actions[1..], p)
  }

  function Crashes(w: World, actions: seq<Action>, p: ProjectId): nat
    decreases |actions|
  {
    if actions == [] then 0
    else (if actions[0].Crash? && Live(w, p, actions[0].caller) then 1 else 0) + Crashes(Next(w, actions[0]), actions[1..], p)
  }

  /** How far a call that nobody disturbs has brought its run. */
  predicate Undisturbed(k: Core, caller: Caller) {
    var key := caller.call.key;
    match caller.pc
    case Gate => key !in k.byKey
    case Claiming => key !in k.byKey
    case Inserting => key !in k.byKey
    case Fetching => key in k.byKey && k.byKey[key] in k.runs && k.runs[k.byKey[key]].state.Running? && k.runs[k.byKey[key]].attemptCount == 0
    case Attempting(r, n) => r in k.runs && n == k.runs[r].attemptCount + 1
    case Cleared(r, n) => r in k.runs && n == k.runs[r].attemptCount + 1
    case Executing(r, n) => r in k.runs && n == k.runs[r].attemptCount + 1
    case Appending(r, n, _) => r in k.runs && n == k.runs[r].attemptCount + 1
    case _ => true
  }

  predicate GoesWell(w: World, c: CallerId) {
    c in w.callers && Undisturbed(CoreOf(w), w.callers[c])
  }

  ghost predicate Solo(w: World, p: ProjectId) {
    forall c :: Active(w, p, c) ==> !Busy(w, p, c) && GoesWell(w, c)
  }

  lemma InsertLeavesUndisturbed(k: Core, id: RunId, key: RequestKey, now: int, caller: Caller)
    requires id !in k.runs && key != caller.call.key && Undisturbed(k, caller)
    ensures Undisturbed(InsertedCore(k, id, key, now), caller)
  {
  }

  lemma AppendLeavesUndisturbed(k: Core, d: CallerId, r: RunId, n: nat, result: ExecutionResult, now: int, c: CallerId, caller: Caller)
    requires KeysAreUnique(k) && r in k.runs && k.runs[r].key != caller.call.key && CallerOk(k, c, caller) && Undisturbed(k, caller)
    ensures Undisturbed(Appended(k, d, r, n, result, now), caller)
  {
  }

  lemma FinishLeavesUndisturbed(k: Core, d: CallerId, r: RunId, result: ExecutionResult, now: int, c: CallerId, caller: Caller)
    requires KeysAreUnique(k) && r in k.runs && k.runs[r].key != caller.call.key && CallerOk(k, c, caller) && Undisturbed(k, caller)
    ensures Undisturbed(FinishedCore(k, d, r, result, now), caller)
  {
  }

  /** The row a call writes to has its own key, and takes the write. */
  lemma WritesOwnRow(k: Core, c: CallerId, caller: Caller)
    requires TablesOk(k) && CallerOk(k, c, caller)
    ensures caller.pc.Appending? ==>
              caller.pc.run in k.runs && k.runs[caller.pc.run].key == caller.call.key && 1 <= caller.pc.number <= 3
    ensures caller.pc.Finishing? ==>
              caller.pc.run in k.runs && k.runs[caller.pc.run].key == caller.call.key && k.runs[caller.pc.run].state.Running?
    ensures caller.pc.Appending? && k.runs[caller.pc.run].attemptCount == caller.pc.number - 1 ==>
              caller.pc.number !in Of(k.attempts, caller.pc.run)
  {
    if caller.pc.Appending? { assert RowOk(k, caller.pc.run); }
  }

  /** The steps of another project's call leave a call undisturbed. */
  lemma OthersLeaveUndisturbed(w: World, d: CallerId, input: Input, c: CallerId)
    requires Inv(w) && d in w.callers && c in w.callers
    requires w.callers[d].call.key.project != w.callers[c].call.key.project
    requires Undisturbed(CoreOf(w), w.callers[c])
    ensures Undisturbed(CoreOf(AdvanceCaller(w, d, input)), w.callers[c])
  {
    hide AdvanceCaller, Undisturbed, AttemptsAgree, StateAgrees;
    var k, caller := CoreOf(w), w.callers[c];
    assert CallerOk(k, c, caller) && CallerOk(k, d, w.callers[d]);
    hide CallerOk;
    WritesOwnRow(k, d, w.callers[d]);
    match w.callers[d].pc
    case Inserting =>
      InsertStepShape(w, d, input);
      if input.newId !in k.runs { InsertLeavesUndisturbed(k, input.newId, w.callers[d].call.key, input.now, caller); }
    case Appending(r, n, result) =>
      AppendStepShape(w, d, input, r, n, result);
      AppendLeavesUndisturbed(k, d, r, n, result, input.now, c, caller);
    case Finishing(r, n, result) =>
      FinishStepShape(w, d, input, r, n, result);
      FinishLeavesUndisturbed(k, d, r, result, input.now, c, caller);
    case _ => QuietStepShape(w, d, input);
  }

  lemma InvParts(w: World, c: CallerId)
    requires Inv(w) && c in w.callers
    ensures TablesOk(CoreOf(w)) && CallerOk(CoreOf(w), c, w.callers[c])
    ensures forall key :: key in w.tables.byKey ==> w.tables.byKey[key] in w.tables.runs
  {
    assert KeysAreUnique(CoreOf(w));
  }

  lemma UnderWay(w: World, c: CallerId, p: ProjectId)
    requires c in w.callers && w.callers[c].call.key.project == p
    requires var pc := w.callers[c].pc; pc.Fetching? || pc.Attempting? || pc.Finishing? || pc.Recording?
    ensures Live(w, p, c)
  {
  }

  lemma OwnInsertUndisturbed(w: World, c: CallerId, input: Input)
    requires c in w.callers && w.callers[c].pc.Inserting? && Undisturbed(CoreOf(w), w.callers[c])
    requires input.newId !in w.tables.runs
    ensures var w1 := AdvanceCaller(w, c, input);
            && c in w1.callers && Undisturbed(CoreOf(w1), w1.callers[c])
            && w1.callers[c].call == w.callers[c].call && w1.callers[c].pc.Fetching?
  {
    InsertStepShape(w, c, input);
    hide AdvanceCaller;
  }

  lemma AppendCountsUp(k: Core, c: CallerId, call: Call, r: RunId, n: nat, result: ExecutionResult, now: int, pc: Pc)
    requires r in k.runs && (pc == Attempting(r, n + 1) || pc == Finishing(r, n, result))
    ensures Undisturbed(Appended(k, c, r, n, result, now), Caller(call, pc))
  {
  }

  lemma OwnAppendUndisturbed(w: World, c: CallerId, input: Input, r: RunId, n: nat, result: ExecutionResult)
    requires TablesOk(CoreOf(w)) && c in w.callers && CallerOk(CoreOf(w), c, w.callers[c])
    requires w.callers[c].pc == Appending(r, n, result) && Undisturbed(CoreOf(w), w.callers[c])
    ensures var w1 := AdvanceCaller(w, c, input);
            && c in w1.callers && Undisturbed(CoreOf(w1), w1.callers[c])
            && w1.callers[c].call == w.callers[c].call && (w1.callers[c].pc.Attempting? || w1.callers[c].pc.Finishing?)
  {
    var k, call := CoreOf(w), w.callers[c].call;
    WritesOwnRow(k, c, w.callers[c]);
    assert r in k.runs && n !in Of(k.attempts, r);
    hide AdvanceCaller, CallerOk, TablesOk, Undisturbed, Appended;
    AppendStepShape(w, c, input, r, n, result);
    AppendCountsUp(k, c, call, r, n, result, input.now,
                   if Retryable(result) && n < call.maxAttempts then Attempting(r, n + 1) else Finishing(r, n, result));
  }

  lemma RecordingUndisturbed(k: Core, caller: Caller)
    requires caller.pc.Recording?
    ensures Undisturbed(k, caller)
  {
  }

  lemma OwnFinishUndisturbed(w: World, c: CallerId, input: Input, r: RunId, n: nat, result: ExecutionResult)
    requires TablesOk(CoreOf(w)) && c in w.callers && CallerOk(CoreOf(w), c, w.callers[c]) && w.callers[c].pc == Finishing(r, n, result)
    ensures var w1 := AdvanceCaller(w, c, input);
            && c in w1.callers && Undisturbed(CoreOf(w1), w1.callers[c])
            && w1.callers[c].call == w.callers[c].call && w1.callers[c].pc.Recording?
  {
    WritesOwnRow(CoreOf(w), c, w.callers[c]);
    hide AdvanceCaller, CallerOk, TablesOk, Undisturbed, FinishedCore;
    FinishStepShape(w, c, input, r, n, result);
    var w1 := AdvanceCaller(w, c, input);
    RecordingUndisturbed(CoreOf(w1), w1.callers[c]);
  }

  lemma OwnQuietStepUndisturbed(w: World, c: CallerId, input: Input, p: ProjectId)
    requires c in w.callers && Quiet(w.callers[c].pc) && Undisturbed(CoreOf(w), w.callers[c])
    requires forall key :: key in w.tables.byKey ==> w.tables.byKey[key] in w.tables.runs
    ensures var w1 := AdvanceCaller(w, c, input);
            && c in w1.callers && Undisturbed(CoreOf(w), w1.callers[c])
            && (Live(w, p, c) && !Live(w1, p, c) ==> w.callers[c].pc.Recording?)
  {
    match w.callers[c].pc
    case Lookup =>
    case Claiming =>
    case Cleared(_, _) =>
    case Recording(_, _, _) =>
    case Fetching =>
    case _ =>
  }

  /** Its own steps do too, and none of them loses the call. */
  lemma OwnStepUndisturbed(w: World, c: CallerId, input: Input, p: ProjectId)
    requires Inv(w) && c in w.callers && w.callers[c].call.key.project == p && Undisturbed(CoreOf(w), w.callers[c])
    requires w.callers[c].pc.Inserting? ==> input.newId !in w.tables.runs
    ensures var w1 := AdvanceCaller(w, c, input);
            && c in w1.callers && Undisturbed(CoreOf(w1), w1.callers[c])
            && (Live(w, p, c) && !Live(w1, p, c) ==> w.callers[c].pc.Recording?)
  {
    hide AdvanceCaller, Undisturbed, CallerOk, TablesOk, Inv, Live;
    InvParts(w, c);
    match w.callers[c].pc
    case Inserting =>
      OwnInsertUndisturbed(w, c, input);
      UnderWay(AdvanceCaller(w, c, input), c, p);
    case Appending(r, n, result) =>
      OwnAppendUndisturbed(w, c, input, r, n, result);
      UnderWay(AdvanceCaller(w, c, input), c, p);
    case Finishing(r, n, result) =>
      OwnFinishUndisturbed(w, c, input, r, n, result);
      UnderWay(AdvanceCaller(w, c, input), c, p);
    case _ =>
      QuietStepShape(w, c, input);
      OwnQuietStepUndisturbed(w, c, input, p);
  }

  lemma OthersStepUndisturbed(w: World, a: Action, p: ProjectId, c: CallerId)
    requires Inv(w) && c in w.callers && w.callers[c].call.key.project == p && Undisturbed(CoreOf(w), w.callers[c])
    requires (a.Advance? || a.Crash?) && a.caller in w.callers ==>
               a.caller != c && (w.callers[a.caller].call.key.project != p || Over(w.callers[a.caller].pc))
    ensures c in Next(w, a).callers && Next(w, a).callers[c] == w.callers[c] && Undisturbed(CoreOf(Next(w, a)), w.callers[c])
  {
    hide Undisturbed, Inv;
    if a.Advance? {
      if a.caller in w.callers {
        AdvancePcOnlyMoves(w, a.caller, a.input, c);
        if Over(w.callers[a.caller].pc) {
          OverStays(w, a.caller, a.input);
        } else {
          hide AdvanceCaller;
          OthersLeaveUndisturbed(w, a.caller, a.input, c);
        }
      }
    } else {
      OtherStepShape(w, a);
    }
  }

  lemma OverStays(w: World, c: CallerId, input: Input)
    requires c in w.callers && Over(w.callers[c].pc)
    ensures AdvanceCaller(w, c, input) == w
  {
  }

  /** A call under way was so before the step, unless it started with it. */
  lemma ActiveBefore(w: World, a: Action, p: ProjectId, o: CallerId)
    requires Active(Next(w, a), p, o)
    ensures Active(w, p, o) || (a.StartCall? && a.caller == o && a.call.key.project == p && Next(w, a).callers[o].pc.Lookup?)
  {
    if a.Advance? {
      if a.caller in w.callers {
        if a.caller == o {
          if Over(w.callers[o].pc) { OverStays(w, o, a.input); }
          AdvanceCircuitShape(w, o, a.input, p);
        } else {
          AdvancePcOnlyMoves(w, a.caller, a.input, o);
        }
      }
    } else {
      OtherStepShape(w, a);
    }
  }

  lemma StaysWell(w: World, a: Action, p: ProjectId, c: CallerId)
    requires Inv(w) && Solo(w, p) && StepOneByOne(w, a, p) && Active(w, p, c) && Active(Next(w, a), p, c)
    ensures GoesWell(Next(w, a), c)
  {
    assert GoesWell(w, c) && !Busy(w, p, c);
    hide Undisturbed, Inv, Busy, Solo;
    if (a.Advance? || a.Crash?) && a.caller == c {
      if a.Advance? { OwnStepUndisturbed(w, c, a.input, p); }
    } else {
      OthersAreOver(w, p, a, c);
      hide Next;
      OthersStepUndisturbed(w, a, p, c);
    }
  }

  lemma OthersAreOver(w: World, p: ProjectId, a: Action, c: CallerId)
    requires !Busy(w, p, c) && (a.Advance? || a.Crash? ==> a.caller != c)
    ensures (a.Advance? || a.Crash?) && a.caller in w.callers ==>
              w.callers[a.caller].call.key.project != p || Over(w.callers[a.caller].pc)
  {
    assert a.Advance? || a.Crash? ==> !Active(w, p, a.caller);
  }

  lemma StartsWell(w: World, a: Action, p: ProjectId, c: CallerId)
    requires Active(Next(w, a), p, c) && Next(w, a).callers[c].pc.Lookup?
    ensures GoesWell(Next(w, a), c)
  {
    hide Next;
  }

  lemma StepKeepsSolo(w: World, a: Action, p: ProjectId)
    requires Inv(w) && Solo(w, p) && StepOneByOne(w, a, p)
    ensures Solo(Next(w, a), p)
  {
    hide Inv, Next, Active, GoesWell, StepOneByOne;
    var w1 := Next(w, a);
    forall c | Active(w1, p, c)
      ensures !Busy(w1, p, c) && GoesWell(w1, c)
    {
      ActiveBefore(w, a, p, c);
      if Active(w, p, c) { StaysWell(w, a, p, c); } else { StartsWell(w, a, p, c); }
      StillAlone(w, a, p, c);
    }
  }

  lemma StillAlone(w: World, a: Action, p: ProjectId, c: CallerId)
    requires Solo(w, p) && StepOneByOne(w, a, p) && Active(Next(w, a), p, c)
    ensures !Busy(Next(w, a), p, c)
  {
    hide Next, Active, GoesWell;
    ActiveBefore(w, a, p, c);
    forall d | Active(Next(w, a), p, d)
      ensures d == c
    {
      ActiveBefore(w, a, p, d);
    }
  }

  /** Then admitted calls do not overlap, and only a crash loses one. */
  lemma StepLosesByCrash(w: World, a: Action, p: ProjectId)
    requires Inv(w) && Solo(w, p) && StepOneByOne(w, a, p)
    ensures Admits(w, a, p) ==> forall o :: !Live(w, p, o)
    ensures Loses(w, a, p) ==> a.Crash?
  {
    hide Undisturbed, Inv, ClaimAnswer, Log, ProbeOut;
    if Loses(w, a, p) && a.Advance? {
      assert Active(w, p, a.caller) && GoesWell(w, a.caller);
      hide Solo;
      OwnStepUndisturbed(w, a.caller, a.input, p);
    }
    if Admits(w, a, p) {
      assert Active(w, p, a.caller) && !Busy(w, p, a.caller);
      hide Next, Solo;
      forall o ensures !Live(w, p, o) { assert o == a.caller || !Active(w, p, o); }
    }
  }

  lemma {:induction false} OneByOneRun(w: World, actions: seq<Action>, p: ProjectId)
    requires Inv(w) && Solo(w, p) && OneByOne(w, actions, p)
    ensures NoOverlap(w, actions, p) && Lost(w, actions, p) <= Crashes(w, actions, p)
    decreases |actions|
  {
    if actions != [] {
      var a := actions[0];
      StepKeepsInv(w, a);
      StepKeepsSolo(w, a, p);
      StepLosesByCrash(w, a, p);
      hide Inv, Solo, Next, StepOneByOne, Live;
      OneByOneRun(Next(w, a), actions[1..], p);
    }
  }

  lemma {:induction false} OneByOneReaches(w: World, before: seq<Action>, during: seq<Action>, p: ProjectId)
    requires Inv(w) && Solo(w, p) && OneByOne(w, before + during, p)
    ensures var w1 := Exec(w, before); Inv(w1) && Solo(w1, p) && OneByOne(w1, during, p)
    decreases |before|
  {
    if before == [] {
      assert before + during == during;
    } else {
      assert (before + during)[0] == before[0] && (before + during)[1..] == before[1..] + during;
      StepKeepsInv(w, before[0]);
      StepKeepsSolo(w, before[0], p);
      hide Inv, Solo, Next, StepOneByOne;
      OneByOneReaches(Next(w, before[0]), before[1..], during, p);
    }
  }

  lemma LiveAlone(w: World, p: ProjectId, c: CallerId, d: CallerId)
    requires Solo(w, p) && Live(w, p, c) && Live(w, p, d)
    ensures c == d
  {
    assert Active(w, p, c) && Active(w, p, d);
  }

  /**
   When the requests to a project come one by one, each with a run id of its own, only a crash loses an
   admitted call: a stretch of T without a success admits at most threshold + T / cooldown calls and one
   more for each admitted call that crashes in it, so without crashes at most threshold + T / cooldown.
   */
  lemma OneByOneAdmits(before: seq<Action>, during: seq<Action>, p: ProjectId, policy: Policy, from: int, to: int)
    requires policy.threshold >= 1 && policy.cooldown >= 1
    requires forall a :: a in before + during ==> Follows(a, p, policy)
    requires OneByOne(INITIAL, before + during, p) && Failing(Exec(INITIAL, before), during, p, from, to)
    ensures var w := Exec(INITIAL, before);
            var window := Added(w, during, p);
            && Log(Exec(INITIAL, before + during), p) == Log(w, p) + window
            && Admissions(window) <= policy.threshold + (to - from) / policy.cooldown + Crashes(w, during, p)
            && Starts(window) <= 3 * Admissions(window) + (if exists c :: Live(w, p, c) then 3 else 0)
  {
    InitialInv();
    assert Solo(INITIAL, p);
    hide Inv, Solo, OneByOne, NoOverlap, Failing, Added, Lost, Crashes;
    OneByOneReaches(INITIAL, before, during, p);
    var w := Exec(INITIAL, before);
    hide Exec;
    OneByOneRun(w, during, p);
    forall c, d | Live(w, p, c) && Live(w, p, d)
      ensures c == d
    {
      LiveAlone(w, p, c, d);
    }
    FailingWindowAdmits(before, during, p, policy, from, to);
  }

  // ---- calls that crash ----

  /** `n` requests one after the other, each crashing once it has been admitted. */
  function Crashing(n: nat, call: Call, input: Input): seq<Action> {
    if n == 0 then [] else Crashing(n - 1, call, input) + CrashOnce(n - 1, call, input)
  }

  function CrashOnce(c: CallerId, call: Call, input: Input): seq<Action> {
    [StartCall(c, call)] + ([Advance(c, input)] + ([Advance(c, input)] + ([Advance(c, input)] + [Crash(c)])))
  }

  /** What `OneByOneAdmits` asks of a stretch whose clock stands still. */
  ghost predicate Conditions(w: World, actions: seq<Action>, p: ProjectId, now: int) {
    OneByOne(w, actions, p) && Failing(w, actions, p, now, now)
  }

  lemma Prepend(w: World, a: Action, rest: seq<Action>, p: ProjectId, now: int)
    requires StepOneByOne(w, a, p) && Conditions(Next(w, a), rest, p, now)
    requires ReadsClock(w, a, p) ==> a.input.now == now && !w.callers[a.caller].pc.Recording?
    ensures Conditions(w, [a] + rest, p, now) && Exec(w, [a] + rest) == Exec(Next(w, a), rest)
  {
    hide Next, StepOneByOne, ReadsClock;
    assert ([a] + rest)[1..] == rest;
  }

  lemma {:induction false} ConditionsConcat(w: World, first: seq<Action>, second: seq<Action>, p: ProjectId, now: int)
    requires Conditions(w, first, p, now) && Conditions(Exec(w, first), second, p, now)
    ensures Conditions(w, first + second, p, now)
    decreases |first|
  {
    if first == [] {
      assert first + second == second;
    } else {
      hide Next, StepOneByOne;
      assert (first + second)[0] == first[0] && (first + second)[1..] == first[1..] + second;
      ConditionsConcat(Next(w, first[0]), first[1..], second, p, now);
    }
  }

  /** Everything is as at the start, but for calls that died and what the circuit saw of them. */
  ghost predicate OnlyDead(w: World, n: nat) {
    w.tables == EMPTY_TABLES && forall c :: c in w.callers ==> c < n && w.callers[c].pc.Dead?
  }

  lemma CrashOnceAdmits(w: World, c: CallerId, call: Call, input: Input)
    requires OnlyDead(w, c) && ValidCall(call)
    ensures var p, w1 := call.key.project, Exec(w, CrashOnce(c, call, input));
            && OnlyDead(w1, c + 1) && Log(w1, p) == Log(w, p) + [Admitted(c, input.now, false)]
            && Conditions(w, CrashOnce(c, call, input), p, input.now)
  {
    var p, now, step := call.key.project, input.now, Advance(c, input);
    var w1 := Next(w, StartCall(c, call));
    assert At(w1, c, call, Lookup) && w1 == w.(callers := w.callers[c := Caller(call, Lookup)]);
    var w2 := Next(w1, step);
    assert w2 == Goto(w1, c, Gate);
    var w3 := Next(w2, step);
    assert w3 == Goto(w2, c, Claiming);
    var w4 := Next(w3, step);
    assert w4 == Goto(Note(w3, p, Admitted(c, now, false)), c, Inserting);
    var w5 := Next(w4, Crash(c));
    assert w5 == Goto(w4, c, Dead);
    assert forall d :: !Active(w, p, d);
    hide Next, AdvanceCaller;
    assert Conditions(w5, [], p, now) && Exec(w5, []) == w5;
    Prepend(w4, Crash(c), [], p, now);
    assert [Crash(c)] + [] == [Crash(c)];
    Prepend(w3, step, [Crash(c)], p, now);
    Prepend(w2, step, [step] + [Crash(c)], p, now);
    Prepend(w1, step, [step] + ([step] + [Crash(c)]), p, now);
    Prepend(w, StartCall(c, call), [step] + ([step] + ([step] + [Crash(c)])), p, now);
  }

  lemma {:induction false} AdmissionsSnoc(log: seq<CircuitEntry>, entry: CircuitEntry)
    ensures Admissions(log + [entry]) == Admissions(log) + (if entry.Admitted? then 1 else 0)
    decreases |log|
  {
    if log == [] {
      assert log + [entry] == [entry];
    } else {
      assert (log + [entry])[0] == log[0] && (log + [entry])[1..] == log[1..] + [entry];
      AdmissionsSnoc(log[1..], entry);
    }
  }

  /**
   Why crashes must be counted: any number of requests, one by one and at one reading of the clock, are
   all admitted if each crashes before it records, whatever the threshold.
   */
  lemma {:induction false} CrashedCallsAreFree(n: nat, call: Call, input: Input)
    requires ValidCall(call)
    ensures var actions, p := Crashing(n, call, input), call.key.project;
            && OneByOne(INITIAL, actions, p) && Failing(INITIAL, actions, p, input.now, input.now)
            && Admissions(Log(Exec(INITIAL, actions), p)) == n
    ensures OnlyDead(Exec(INITIAL, Crashing(n, call, input)), n)
  {
    var p := call.key.project;
    if n > 0 {
      CrashedCallsAreFree(n - 1, call, input);
      var before := Crashing(n - 1, call, input);
      hide Exec, OnlyDead, CrashOnce, Log, Admissions, OneByOne, Failing;
      var w := Exec(INITIAL, before);
      CrashOnceAdmits(w, n - 1, call, input);
      ExecConcat(INITIAL, before, CrashOnce(n - 1, call, input));
      ConditionsConcat(INITIAL, before, CrashOnce(n - 1, call, input), p, input.now);
      AdmissionsSnoc(Log(w, p), Admitted(n - 1, input.now, false));
    }
  }

  // ---- a probe that crashes ----

  lemma StepAfterLostProbe(w: World, a: Action, p: ProjectId, policy: Policy)
    requires CircuitOk(w, p, policy) && Follows(a, p, policy) && ProbeOut(Log(w, p)) && forall c :: !Live(w, p, c)
    ensures Log(Next(w, a), p) == Log(w, p) && forall c :: !Live(Next(w, a), p, c)
  {
    var entries := NewEntries(w, a, p);
    StepAdds(w, a, p);
    if Admits(w, a, p) {
      ClaimFollowsHistory(w, p, policy, a.input.now);
      assert false;
    }
    hide NewEntries, Live, Next, CircuitOk, Log;
    if entries != [] { StepLive(w, a, p, entries[0].caller); }
    assert entries == [];
    assert Log(w, p) + [] == Log(w, p);
    forall c ensures !Live(Next(w, a), p, c) { StepLive(w, a, p, c); }
  }

  lemma {:induction false} NothingAfterLostProbe(w: World, actions: seq<Action>, p: ProjectId, policy: Policy)
    requires CircuitOk(w, p, policy) && ProbeOut(Log(w, p)) && forall c :: !Live(w, p, c)
    requires forall a :: a in actions ==> Follows(a, p, policy)
    ensures Log(Exec(w, actions), p) == Log(w, p)
    decreases |actions|
  {
    if actions != [] {
      assert Follows(actions[0], p, policy);
      StepKeepsCircuit(w, actions[0], p, policy);
      StepAfterLostProbe(w, actions[0], p, policy);
      hide CircuitOk, Live, Next, Log, Follows;
      NothingAfterLostProbe(Next(w, actions[0]), actions[1..], p, policy);
    }
  }

  /** Once a probe is out and no admitted call of the project is live, nothing is ever admitted, started or recorded again. */
  lemma LostProbeEndsAdmissions(before: seq<Action>, after: seq<Action>, p: ProjectId, policy: Policy)
    requires policy.threshold >= 1 && forall a :: a in before + after ==> Follows(a, p, policy)
    requires ProbeOut(Log(Exec(INITIAL, before), p)) && forall c :: !Live(Exec(INITIAL, before), p, c)
    ensures Log(Exec(INITIAL, before + after), p) == Log(Exec(INITIAL, before), p)
  {
    assert forall a :: a in before ==> a in before + after;
    assert forall a :: a in after ==> a in before + after;
    ExecKeepsCircuit(INITIAL, before, p, policy);
    ExecConcat(INITIAL, before, after);
    hide CircuitOk, Live, Log, ProbeOut, Follows;
    NothingAfterLostProbe(Exec(INITIAL, before), after, p, policy);
  }
}
