/** What the control requests achieve: undisturbed each has its effect, and one that is refused was overtaken or came at the wrong state. */
module ControlRequests {
  import opened Common
  import opened TaskTables
  import opened RunnerProtocol
  import opened RunnerOwnership

  // ---- undisturbed requests ----

  /** A request that takes all its steps with nobody in between. */
  function Request(k: ClientId, op: ControlOp, actor: string, reason: string): seq<Action> {
    [StartControl(k, op, actor, reason), AdvanceControl(k), AdvanceControl(k), AdvanceControl(k)]
  }

  predicate MayAsk(w: World, k: ClientId, actor: string, reason: string) {
    k !in w.clients && Stripped(actor) != "" && Stripped(reason) != ""
  }

  /** The request of `k` ends at `pc`; it has led the controller along `path` and touched nothing else. */
  ghost predicate Led(w: World, w1: World, k: ClientId, pc: ClientPc, actor: string, reason: string, path: seq<ControllerState>) {
    && k in w1.clients && w1.clients[k].pc == pc
    && w1.callers == w.callers
    && w1.tables == w.tables.(controller := if path == [] then w.tables.controller else path[|path| - 1],
                              controlEvents := w.tables.controlEvents
                                               + EventsAlong(w.tables.controller, path, Stripped(actor), Stripped(reason)))
  }

  function EventsAlong(from: ControllerState, path: seq<ControllerState>, actor: string, reason: string): seq<ControlEvent>
    decreases |path|
  {
    if path == [] then [] else [ControlEvent(actor, reason, from, path[0])] + EventsAlong(path[0], path[1..], actor, reason)
  }

  lemma RequestTakesFourSteps(w: World, k: ClientId, op: ControlOp, actor: string, reason: string)
    requires MayAsk(w, k, actor, reason)
    ensures var w1 := w.(clients := w.clients[k := Client(op, actor, reason, Reading)]);
            && Next(w, StartControl(k, op, actor, reason)) == w1
            && Exec(w, Request(k, op, actor, reason)) == ThreeSteps(w1, k)
  {
    hide AdvanceClient, Stripped;
    var actions := Request(k, op, actor, reason);
    var a := AdvanceControl(k);
    assert actions[1..] == [a, a, a] && [a, a, a][1..] == [a, a] && [a, a][1..] == [a] && [a][1..] == [];
    var w1 := Next(w, actions[0]);
    assert Exec(Next(Next(Next(w1, a), a), a), []) == Next(Next(Next(w1, a), a), a);
    assert Exec(Next(Next(w1, a), a), [a]) == Next(Next(Next(w1, a), a), a);
    assert Exec(Next(w1, a), [a, a]) == Next(Next(Next(w1, a), a), a);
    assert Exec(w1, [a, a, a]) == Next(Next(Next(w1, a), a), a);
  }

  function ThreeSteps(w: World, k: ClientId): World {
    Next(Next(Next(w, AdvanceControl(k)), AdvanceControl(k)), AdvanceControl(k))
  }

  lemma PathEvents(from: ControllerState, a: ControllerState, b: ControllerState, actor: string, reason: string)
    ensures EventsAlong(from, [], actor, reason) == []
    ensures EventsAlong(from, [a], actor, reason) == [ControlEvent(actor, reason, from, a)]
    ensures EventsAlong(from, [a, b], actor, reason) == [ControlEvent(actor, reason, from, a), ControlEvent(actor, reason, a, b)]
  {
    assert [a][1..] == [] && [a, b][1..] == [b] && [b][1..] == [];
    assert EventsAlong(a, [b], actor, reason) == [ControlEvent(actor, reason, a, b)];
  }

  /** An undisturbed stop always stops, in whatever state it finds the controller; it adds one event unless that is stopped already. */
  lemma StopAlwaysStops(w: World, k: ClientId, actor: string, reason: string)
    requires MayAsk(w, k, actor, reason)
    ensures Led(w, Exec(w, Request(k, Stop, actor, reason)), k, Answered(EmergencyStop), actor, reason,
                if w.tables.controller == EmergencyStop then [] else [EmergencyStop])
    ensures Exec(w, Request(k, Stop, actor, reason)).tables.controller == EmergencyStop
  {
    RequestTakesFourSteps(w, k, Stop, actor, reason);
    PathEvents(w.tables.controller, EmergencyStop, EmergencyStop, Stripped(actor), Stripped(reason));
    hide Exec, Stripped, EventsAlong;
  }

  /** An undisturbed drain drains from every state but EMERGENCY_STOP, through DRAINING unless the controller is there or beyond. */
  lemma DrainDrains(w: World, k: ClientId, actor: string, reason: string)
    requires MayAsk(w, k, actor, reason)
    ensures var s := w.tables.controller;
            var w1 := Exec(w, Request(k, Drain, actor, reason));
            if s == EmergencyStop then Led(w, w1, k, Rejected, actor, reason, [])
            else if s == Drained then Led(w, w1, k, Answered(Drained), actor, reason, [])
            else if s == Draining then Led(w, w1, k, Answered(Drained), actor, reason, [Drained])
            else Led(w, w1, k, Answered(Drained), actor, reason, [Draining, Drained])
  {
    RequestTakesFourSteps(w, k, Drain, actor, reason);
    PathEvents(w.tables.controller, Drained, Drained, Stripped(actor), Stripped(reason));
    PathEvents(w.tables.controller, Draining, Drained, Stripped(actor), Stripped(reason));
    hide Exec, Stripped, EventsAlong;
  }

  /** An undisturbed clear leads from EMERGENCY_STOP to RECOVERING and is refused everywhere else. */
  lemma ClearSucceedsIff(w: World, k: ClientId, actor: string, reason: string)
    requires MayAsk(w, k, actor, reason)
    ensures var w1 := Exec(w, Request(k, ClearStop, actor, reason));
            if w.tables.controller == EmergencyStop then Led(w, w1, k, Answered(Recovering), actor, reason, [Recovering])
            else Led(w, w1, k, Rejected, actor, reason, [])
  {
    RequestTakesFourSteps(w, k, ClearStop, actor, reason);
    PathEvents(w.tables.controller, Recovering, Recovering, Stripped(actor), Stripped(reason));
    hide Exec, Stripped, EventsAlong;
  }

  /** An undisturbed recovery is completed from RECOVERING and refused everywhere else. */
  lemma RecoverySucceedsIff(w: World, k: ClientId, actor: string, reason: string)
    requires MayAsk(w, k, actor, reason)
    ensures var w1 := Exec(w, Request(k, CompleteRecovery, actor, reason));
            if w.tables.controller == Recovering then Led(w, w1, k, Answered(Active), actor, reason, [Active])
            else Led(w, w1, k, Rejected, actor, reason, [])
  {
    RequestTakesFourSteps(w, k, CompleteRecovery, actor, reason);
    PathEvents(w.tables.controller, Active, Active, Stripped(actor), Stripped(reason));
    hide Exec, Stripped, EventsAlong;
  }

  // ---- disturbed requests ----

  /** The states that a request refuses when it reads them. */
  predicate Refuses(op: ControlOp, s: ControllerState) {
    match op
    case Drain => s == EmergencyStop
    case Stop => false
    case ClearStop => s != EmergencyStop
    case CompleteRecovery => s != Recovering
  }

  /** Where a successful request ends. */
  function Target(op: ControlOp): ControllerState {
    match op
    case Drain => Drained
    case Stop => EmergencyStop
    case ClearStop => Recovering
    case CompleteRecovery => Active
  }

  function StateAfter(actions: seq<Action>): ControllerState { Exec(INITIAL, actions).tables.controller }

  /** Action `i` is a step of `k`'s request. */
  predicate StepOf(actions: seq<Action>, i: nat, k: ClientId) {
    i < |actions| && actions[i] == AdvanceControl(k) && k in Exec(INITIAL, actions[..i]).clients
  }

  /** It is the one that reads the state. */
  predicate ReadOf(actions: seq<Action>, i: nat, k: ClientId) {
    StepOf(actions, i, k) && Exec(INITIAL, actions[..i]).clients[k].pc.Reading?
  }

  /** It read a state that it refuses. */
  ghost predicate ReadRefused(actions: seq<Action>, k: ClientId, op: ControlOp) {
    exists i: nat :: ReadOf(actions, i, k) && Refuses(op, StateAfter(actions[..i]))
  }

  /** Its step `i`, the last before `n`, left the controller in state `s`. */
  predicate LeftAt(actions: seq<Action>, k: ClientId, i: nat, n: nat, s: ControllerState) {
    && i < n <= |actions| && StepOf(actions, i, k) && StateAfter(actions[..i + 1]) == s
    && forall m :: i < m < n ==> actions[m] != AdvanceControl(k)
  }

  /** Between two consecutive steps of `k` the state moved. */
  ghost predicate Overtaken(actions: seq<Action>, k: ClientId) {
    exists i: nat, j: nat, s :: StepOf(actions, j, k) && LeftAt(actions, k, i, j, s) && StateAfter(actions[..j]) != s
  }

  /** One of its steps left the controller in state `s`. */
  ghost predicate Reached(actions: seq<Action>, k: ClientId, s: ControllerState) {
    exists i: nat :: StepOf(actions, i, k) && StateAfter(actions[..i + 1]) == s
  }

  ghost predicate Accounted(actions: seq<Action>, k: ClientId, client: Client) {
    match client.pc
    case Reading => true
    case Committing(from, next) =>
      && (exists i: nat :: LeftAt(actions, k, i, |actions|, from))
      && (next == Target(client.op) || (client.op == Drain && next == Draining))
    case Answered(s) => s == Target(client.op) && Reached(actions, k, s)
    case Rejected => ReadRefused(actions, k, client.op) || Overtaken(actions, k)
  }

  lemma PrefixesStay(actions: seq<Action>, a: Action, i: nat)
    requires i < |actions|
    ensures (actions + [a])[..i] == actions[..i] && (actions + [a])[..i + 1] == actions[..i + 1]
  {
  }

  /** What is known of a request stays known while others step. */
  lemma AccountStays(actions: seq<Action>, a: Action, k: ClientId, client: Client)
    requires Accounted(actions, k, client) && a != AdvanceControl(k)
    ensures Accounted(actions + [a], k, client)
  {
    hide StateAfter;
    var more := actions + [a];
    match client.pc
    case Reading =>
    case Committing(from, next) =>
      var i: nat :| LeftAt(actions, k, i, |actions|, from);
      PrefixesStay(actions, a, i);
      assert LeftAt(more, k, i, |more|, from);
    case Answered(s) => ReachedStays(actions, a, k, s);
    case Rejected => RefusalStays(actions, a, k, client.op);
  }

  lemma ReachedStays(actions: seq<Action>, a: Action, k: ClientId, s: ControllerState)
    requires Reached(actions, k, s)
    ensures Reached(actions + [a], k, s)
  {
    hide StateAfter;
    var i: nat :| StepOf(actions, i, k) && StateAfter(actions[..i + 1]) == s;
    PrefixesStay(actions, a, i);
    assert StepOf(actions + [a], i, k);
  }

  lemma RefusalStays(actions: seq<Action>, a: Action, k: ClientId, op: ControlOp)
    requires ReadRefused(actions, k, op) || Overtaken(actions, k)
    ensures ReadRefused(actions + [a], k, op) || Overtaken(actions + [a], k)
  {
    hide StateAfter;
    var more := actions + [a];
    if ReadRefused(actions, k, op) {
      var i: nat :| ReadOf(actions, i, k) && Refuses(op, StateAfter(actions[..i]));
      PrefixesStay(actions, a, i);
      assert ReadOf(more, i, k);
    } else {
      var i: nat, j: nat, s :| StepOf(actions, j, k) && LeftAt(actions, k, i, j, s) && StateAfter(actions[..j]) != s;
      PrefixesStay(actions, a, i);
      PrefixesStay(actions, a, j);
      assert StepOf(more, j, k) && LeftAt(more, k, i, j, s);
    }
  }

  /** One step of a request, in the terms of `Accounted`. */
  lemma RequestStep(w: World, k: ClientId)
    requires k in w.clients
    ensures var client, w1 := w.clients[k], AdvanceClient(w, k);
            && k in w1.clients && w1.clients[k] == client.(pc := w1.clients[k].pc)
            && match client.pc
               case Reading =>
                 && w1.tables.controller == w.tables.controller
                 && (match w1.clients[k].pc
                     case Reading => false
                     case Committing(from, next) =>
                       from == w.tables.controller && (next == Target(client.op) || (client.op == Drain && next == Draining))
                     case Answered(s) => s == w.tables.controller == Target(client.op)
                     case Rejected => Refuses(client.op, w.tables.controller))
               case Committing(from, next) =>
                 if w.tables.controller != from then w1.clients[k].pc == Rejected
                 else
                   && w1.tables.controller == next
                   && (if client.op == Drain && next == Draining then w1.clients[k].pc == Committing(Draining, Drained)
                       else w1.clients[k].pc == Answered(next))
               case _ => w1 == w
  {
    hide Stripped;
  }

  lemma LeftNow(actions: seq<Action>, k: ClientId, s: ControllerState)
    requires k in Exec(INITIAL, actions).clients
    requires StateAfter(actions + [AdvanceControl(k)]) == s
    ensures var more := actions + [AdvanceControl(k)];
            LeftAt(more, k, |actions|, |more|, s) && Reached(more, k, s) && StepOf(more, |actions|, k) && more[..|actions|] == actions
  {
    hide StateAfter;
    var more := actions + [AdvanceControl(k)];
    assert more[..|actions| + 1] == more;
    assert StepOf(more, |actions|, k);
  }

  lemma OwnStepIsAccounted(actions: seq<Action>, k: ClientId)
    requires var w := Exec(INITIAL, actions); k in w.clients && Accounted(actions, k, w.clients[k])
    ensures var more := actions + [AdvanceControl(k)];
            var w1 := Exec(INITIAL, more);
            k in w1.clients && Accounted(more, k, w1.clients[k])
  {
    var w, more := Exec(INITIAL, actions), actions + [AdvanceControl(k)];
    var client := w.clients[k];
    ExecSnoc(INITIAL, actions, AdvanceControl(k));
    RequestStep(w, k);
    var w1 := Exec(INITIAL, more);
    LeftNow(actions, k, w1.tables.controller);
    assert StateAfter(actions) == w.tables.controller;
    hide Exec, AdvanceClient;
    match client.pc
    case Reading =>
    case Committing(from, next) =>
      if w.tables.controller != from {
        var i: nat :| LeftAt(actions, k, i, |actions|, from);
        PrefixesStay(actions, AdvanceControl(k), i);
        assert LeftAt(more, k, i, |actions|, from);
      }
    case Answered(s) => ReachedStays(actions, AdvanceControl(k), k, s);
    case Rejected => RefusalStays(actions, AdvanceControl(k), k, client.op);
  }

  /** Another action leaves the request where it is, or starts it. */
  lemma OthersLeaveRequest(w: World, a: Action, k: ClientId)
    requires a != AdvanceControl(k)
    ensures k in w.clients ==> k in Next(w, a).clients && Next(w, a).clients[k] == w.clients[k]
    ensures k !in w.clients && k in Next(w, a).clients ==> Next(w, a).clients[k].pc.Reading?
  {
    match a
    case Advance(c, input) => if c in w.callers { CallersLeaveClients(w, c, input); }
    case _ =>
  }

  lemma CallersLeaveClients(w: World, c: CallerId, input: Input)
    requires c in w.callers
    ensures AdvanceCaller(w, c, input).clients == w.clients
  {
    match w.callers[c].pc
    case Claiming =>
    case Appending(_, _, _) =>
    case Recording(_, _, _) =>
    case _ =>
  }

  lemma {:induction false} RequestsAreAccounted(actions: seq<Action>, k: ClientId)
    ensures var w := Exec(INITIAL, actions); k in w.clients ==> Accounted(actions, k, w.clients[k])
  {
    if actions != [] {
      var front, last := actions[..|actions| - 1], actions[|actions| - 1];
      var w := Exec(INITIAL, front);
      RequestsAreAccounted(front, k);
      assert actions == front + [last];
      ExecSnoc(INITIAL, front, last);
      if last == AdvanceControl(k) {
        if k in w.clients { OwnStepIsAccounted(front, k); }
      } else {
        OthersLeaveRequest(w, last, k);
        hide Exec, Next, Accounted;
        if k in w.clients { AccountStays(front, last, k, w.clients[k]); } else { NotYetRead(actions, k); }
      }
    }
  }

  lemma NotYetRead(actions: seq<Action>, k: ClientId)
    ensures forall client: Client :: client.pc.Reading? ==> Accounted(actions, k, client)
  {
  }

  /**
   In every interleaving a request that is refused had read a state it refuses, or the state moved between
   two of its steps; so a stop fails only if it was overtaken. One that answers names the state it was asked
   for, and one of its own steps left the controller there.
   */
  lemma RefusedOnlyIfOvertaken(actions: seq<Action>, k: ClientId)
    requires k in Exec(INITIAL, actions).clients
    ensures var client := Exec(INITIAL, actions).clients[k];
            && (client.pc == Rejected ==>
                  Overtaken(actions, k) || match client.op
                                           case Drain => ReadState(actions, k, s => s == EmergencyStop)
                                           case Stop => false
                                           case ClearStop => ReadState(actions, k, s => s != EmergencyStop)
                                           case CompleteRecovery => ReadState(actions, k, s => s != Recovering))
            && (client.pc.Answered? ==>
                  && client.pc.state == (match client.op
                                         case Drain => Drained
                                         case Stop => EmergencyStop
                                         case ClearStop => Recovering
                                         case CompleteRecovery => Active)
                  && Reached(actions, k, client.pc.state))
  {
    RequestsAreAccounted(actions, k);
    var client := Exec(INITIAL, actions).clients[k];
    if ReadRefused(actions, k, client.op) {
      var i: nat :| ReadOf(actions, i, k) && Refuses(client.op, StateAfter(actions[..i]));
    }
  }

  /** It read such a state. */
  ghost predicate ReadState(actions: seq<Action>, k: ClientId, such: ControllerState -> bool) {
    exists i: nat :: ReadOf(actions, i, k) && such(StateAfter(actions[..i]))
  }
}
