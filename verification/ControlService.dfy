/** The control requests as the methods they are: read the state, then compare-and-set it. */
module ControlService {
  import opened Common
  import opened TaskTables
  import opened RunnerProtocol
  import opened RunnerService

  class ControlService {
    const db: Database

    constructor (db: Database)
      ensures this.db == db
    {
      this.db := db;
    }

    ghost predicate At(me: ClientId, client: Client)
      reads this, db
    {
      db.Valid() && me in db.Reached().clients && db.Reached().clients[me] == client
    }

    /** A request ends with the state it answers, or with an exception. */
    ghost predicate Ended(me: ClientId, client: Client, answer: Option<ControllerState>)
      reads this, db
    {
      At(me, client.(pc := if answer.Some? then Answered(answer.value) else Rejected))
    }

    method Yield(ghost me: ClientId, ghost client: Client)
      requires At(me, client)
      modifies db
      ensures At(me, client) && old(db.trace) <= db.trace
    {
      ghost var before := db.trace;
      db.Interfere(Operator(me));
      ghost var others :| db.trace == before + others && forall a :: a in others ==> !By(a, Operator(me));
      ExecConcat(INITIAL, before, others);
      OthersLeaveClient(Exec(INITIAL, before), others, me);
    }

    /** `get_state`. */
    method GetState(ghost me: ClientId, ghost client: Client) returns (state: ControllerState)
      requires At(me, client) && client.pc == Reading
      modifies db
      ensures At(me, client.(pc := AfterReading(client.op, state))) && old(db.trace) <= db.trace
    {
      Yield(me, client);
      state := db.controller;
      db.Step(AdvanceControl(me));
    }

    /** `_transition`: the table of legal edges, then the guarded update. */
    method Transition(ghost me: ClientId, client: Client, from: ControllerState, next: ControllerState) returns (ok: bool)
      requires At(me, client) && client.pc == ToCommit(from, next)
      modifies db
      ensures At(me, client.(pc := if ok then AfterCommit(client.op, next) else Rejected)) && old(db.trace) <= db.trace
    {
      if next !in Legal(from) { return false; }
      Yield(me, client);
      ok := db.TransitionControllerState(from, next, Stripped(client.actor), Stripped(client.reason));
      db.Step(AdvanceControl(me));
    }

    method Drain(ghost me: ClientId, actor: string, reason: string) returns (answer: Option<ControllerState>)
      requires db.Valid() && me !in db.Reached().clients
      modifies db
      ensures old(db.trace) <= db.trace
      ensures if Stripped(actor) == "" || Stripped(reason) == "" then answer == None && db.trace == old(db.trace)
              else Ended(me, Client(ControlOp.Drain, actor, reason, Reading), answer)
    {
      if Stripped(actor) == "" || Stripped(reason) == "" { return None; }
      var client := Client(ControlOp.Drain, actor, reason, Reading);
      db.Step(StartControl(me, ControlOp.Drain, actor, reason));
      var state := GetState(me, client);
      if state == Drained { return Some(state); }
      if state == EmergencyStop { return None; }
      if state != Draining {
        var ok := Transition(me, client.(pc := ToCommit(state, Draining)), state, Draining);
        if !ok { return None; }
      }
      var ok := Transition(me, client.(pc := ToCommit(Draining, Drained)), Draining, Drained);
      answer := if ok then Some(Drained) else None;
    }

    method EmergencyStopAll(ghost me: ClientId, actor: string, reason: string) returns (answer: Option<ControllerState>)
      requires db.Valid() && me !in db.Reached().clients
      modifies db
      ensures old(db.trace) <= db.trace
      ensures if Stripped(actor) == "" || Stripped(reason) == "" then answer == None && db.trace == old(db.trace)
              else Ended(me, Client(Stop, actor, reason, Reading), answer)
    {
      if Stripped(actor) == "" || Stripped(reason) == "" { return None; }
      var client := Client(Stop, actor, reason, Reading);
      db.Step(StartControl(me, Stop, actor, reason));
      var state := GetState(me, client);
      if state == EmergencyStop { return Some(state); }
      var ok := Transition(me, client.(pc := ToCommit(state, EmergencyStop)), state, EmergencyStop);
      answer := if ok then Some(EmergencyStop) else None;
    }

    method ClearEmergencyStop(ghost me: ClientId, actor: string, reason: string) returns (answer: Option<ControllerState>)
      requires db.Valid() && me !in db.Reached().clients
      modifies db
      ensures old(db.trace) <= db.trace
      ensures if Stripped(actor) == "" || Stripped(reason) == "" then answer == None && db.trace == old(db.trace)
              else Ended(me, Client(ClearStop, actor, reason, Reading), answer)
    {
      if Stripped(actor) == "" || Stripped(reason) == "" { return None; }
      var client := Client(ClearStop, actor, reason, Reading);
      db.Step(StartControl(me, ClearStop, actor, reason));
      var state := GetState(me, client);
      if state != EmergencyStop { return None; }
      var ok := Transition(me, client.(pc := ToCommit(EmergencyStop, Recovering)), EmergencyStop, Recovering);
      answer := if ok then Some(Recovering) else None;
    }

    method CompleteRecoveryRequest(ghost me: ClientId, actor: string, reason: string) returns (answer: Option<ControllerState>)
      requires db.Valid() && me !in db.Reached().clients
      modifies db
      ensures old(db.trace) <= db.trace
      ensures if Stripped(actor) == "" || Stripped(reason) == "" then answer == None && db.trace == old(db.trace)
              else Ended(me, Client(CompleteRecovery, actor, reason, Reading), answer)
    {
      if Stripped(actor) == "" || Stripped(reason) == "" { return None; }
      var client := Client(CompleteRecovery, actor, reason, Reading);
      db.Step(StartControl(me, CompleteRecovery, actor, reason));
      var state := GetState(me, client);
      if state != Recovering { return None; }
      var ok := Transition(me, client.(pc := ToCommit(Recovering, Active)), Recovering, Active);
      answer := if ok then Some(Active) else None;
    }
  }
}
