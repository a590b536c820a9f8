/** The mutable objects of the saga package: a saga state updated in place, the in-memory log, a saga that
    writes each accepted message to the log, and recovery from the log. */
module Saga {
  import opened Wrappers
  import opened SagaSpec

  class SagaState {
    var sagaId: string
    var job: Option<Bytes>
    var taskState: map<string, Flags>
    var taskData: map<string, TaskData>
    var aborted: bool
    var completed: bool

    ghost function Value(): State
      reads this
    {
      State(sagaId, job, taskState, taskData, aborted, completed)
    }

    constructor (id: string, job: Option<Bytes>)
      ensures Value() == Initial(id, job)
    {
      sagaId, this.job := id, job;
      taskState, taskData := map[], map[];
      aborted, completed := false, false;
    }

    constructor Copy(s: SagaState)
      ensures Value() == s.Value()
    {
      sagaId, job := s.sagaId, s.job;
      taskState, taskData := s.taskState, s.taskData;
      aborted, completed := s.aborted, s.completed;
    }

    method AddTaskData(t: string, kind: MsgKind, data: Bytes)
      modifies this`taskData
      ensures taskData == old(taskData)[t := WithData(old(Value()).DataOf(t), kind, data)]
    {
      if t !in taskData {
        taskData := taskData[t := NO_DATA];
      }
      var d := taskData[t];
      match kind
      case StartTask => taskData := taskData[t := d.(start := Some(data))];
      case EndTask => taskData := taskData[t := d.(end := Some(data))];
      case StartCompTask => taskData := taskData[t := d.(compStart := Some(data))];
      case EndCompTask => taskData := taskData[t := d.(compEnd := Some(data))];
      case _ =>
    }

    /** The loop of the EndSaga case: every task must have finished, or been compensated if aborted. */
    method AllTasksDone() returns (ok: bool)
      ensures ok <==> Value().MayEnd()
    {
      var todo := taskState.Keys;
      while todo != {}
        invariant todo <= taskState.Keys
        invariant forall t <- taskState.Keys - todo ::
            if aborted then taskState[t].compStarted && taskState[t].compCompleted else taskState[t].completed
        decreases todo
      {
        var t :| t in todo;
        if aborted {
          if !(taskState[t].compStarted && taskState[t].compCompleted) { return false; }
        } else if !taskState[t].completed {
          return false;
        }
        todo := todo - {t};
      }
      return true;
    }

    /** Applies a message in place. A refused message leaves the state as it was. */
    method Update(m: Msg) returns (err: Option<SagaError>)
      modifies this
      ensures match Apply(old(Value()), m)
              case Ok(s) => err == None && Value() == s
              case Err(e) => err == Some(e) && Value() == old(Value())
    {
      if m.sagaId != sagaId { return Some(InvalidMessage); }
      var t := m.taskId;
      var flags := if t in taskState then taskState[t] else NO_FLAGS;
      match m.kind {
        case StartSaga =>
          return Some(InvalidState);
        case EndSaga =>
          var ok := AllTasksDone();
          if !ok { return Some(InvalidState); }
          completed := true;
        case AbortSaga =>
          if completed { return Some(InvalidState); }
          aborted := true;
        case StartTask =>
          if t == "" { return Some(InvalidMessage); }
          if completed || aborted || flags.completed { return Some(InvalidState); }
          if m.data.Some? { AddTaskData(t, m.kind, m.data.value); }
          taskState := taskState[t := Flags(true, false, false, false)];
        case EndTask =>
          if t == "" { return Some(InvalidMessage); }
          if completed || aborted || !flags.started { return Some(InvalidState); }
          taskState := taskState[t := flags.(completed := true)];
          if m.data.Some? { AddTaskData(t, m.kind, m.data.value); }
        case StartCompTask =>
          if t == "" { return Some(InvalidMessage); }
          if completed || !aborted || !flags.started || flags.compCompleted { return Some(InvalidState); }
          taskState := taskState[t := flags.(compStarted := true)];
          if m.data.Some? { AddTaskData(t, m.kind, m.data.value); }
        case EndCompTask =>
          if t == "" { return Some(InvalidMessage); }
          if completed || !aborted || !flags.started || !flags.compStarted { return Some(InvalidState); }
          if m.data.Some? { AddTaskData(t, m.kind, m.data.value); }
          taskState := taskState[t := flags.(compCompleted := true)];
      }
      return None;
    }

    method InSafeState() returns (safe: bool)
      ensures safe <==> Safe(Value())
    {
      if aborted { return true; }
      var todo := taskState.Keys;
      while todo != {}
        invariant todo <= taskState.Keys
        invariant forall t <- taskState.Keys - todo :: taskState[t].started ==> taskState[t].completed
        decreases todo
      {
        var t :| t in todo;
        if taskState[t].started && !taskState[t].completed { return false; }
        todo := todo - {t};
      }
      return true;
    }
  }

  /** The in-memory log. `fault` is the environment's choice to lose a write entirely. */
  class MemoryLog {
    var sagas: map<string, seq<Msg>>

    constructor ()
      ensures sagas == map[]
    {
      sagas := map[];
    }

    method StartSaga(id: string, job: Option<Bytes>, fault: bool) returns (err: Option<SagaError>)
      modifies this
      ensures err == if fault then Some(LogError) else None
      ensures sagas == if fault then old(sagas) else old(sagas)[id := [StartSagaMsg(id, job)]]
    {
      if fault { return Some(LogError); }
      sagas := sagas[id := [StartSagaMsg(id, job)]];
      return None;
    }

    method LogMessage(m: Msg, fault: bool) returns (err: Option<SagaError>)
      modifies this
      ensures err == if fault || m.sagaId !in old(sagas) then Some(LogError) else None
      ensures sagas == if err == None then old(sagas)[m.sagaId := old(sagas)[m.sagaId] + [m]] else old(sagas)
    {
      if fault || m.sagaId !in sagas { return Some(LogError); }
      sagas := sagas[m.sagaId := sagas[m.sagaId] + [m]];
      return None;
    }

    method GetMessages(id: string) returns (msgs: seq<Msg>)
      ensures msgs == if id in sagas then sagas[id] else []
    {
      msgs := if id in sagas then sagas[id] else [];
    }
  }

  /** One update offered to a saga, and whether the log loses its write. */
  datatype Offer = Offer(msg: Msg, fault: bool)

  /** A saga as a value: its live state and the messages its log holds. */
  datatype Logged = Logged(state: State, log: seq<Msg>)

  /** Validate, then write, and keep the old state if either fails. */
  function LogStep(l: Logged, o: Offer): Logged {
    match Apply(l.state, o.msg)
    case Err(_) => l
    case Ok(s) => if o.fault then l else Logged(s, l.log + [o.msg])
  }

  function LogRun(l: Logged, offers: seq<Offer>): Logged
    decreases |offers|
  {
    if offers == [] then l else LogRun(LogStep(l, offers[0]), offers[1..])
  }

  ghost predicate Recoverable(id: string, l: Logged) {
    Recover(id, l.log) == Recovered(l.state)
  }

  lemma LogStepKeepsRecoverable(id: string, l: Logged, o: Offer)
    requires Recoverable(id, l)
    ensures Recoverable(id, LogStep(l, o))
  {
    if Apply(l.state, o.msg).Ok? {
      ReplayAppend(Initial(id, l.log[0].data), l.log, o.msg);
    }
  }

  /** Write-ahead: after any updates, with any of the log's writes lost, the log recovers without error to
      exactly the live state. */
  lemma {:induction false} LogRunKeepsRecoverable(id: string, l: Logged, offers: seq<Offer>)
    requires Recoverable(id, l)
    ensures Recoverable(id, LogRun(l, offers))
    decreases |offers|
  {
    if offers != [] {
      LogStepKeepsRecoverable(id, l, offers[0]);
      LogRunKeepsRecoverable(id, LogStep(l, offers[0]), offers[1..]);
    }
  }

  lemma FreshSagaIsRecoverable(id: string, job: Option<Bytes>)
    requires id != ""
    ensures Recoverable(id, Logged(Initial(id, job), [StartSagaMsg(id, job)]))
  {
    assert Replay(Initial(id, job), [StartSagaMsg(id, job)]) == Replay(Initial(id, job), []);
  }

  class Saga {
    const id: string
    const log: MemoryLog
    var state: SagaState
    /** The update loop was started, so a send on the update channel is received. */
    const looping: bool
    /** The update channel was closed by a call of EndSaga. */
    var closed: bool

    ghost function Value(): Logged
      reads this, log, state
    {
      Logged(state.Value(), if id in log.sagas then log.sagas[id] else [])
    }

    ghost predicate Valid()
      reads this, log, state
    {
      Recoverable(id, Value()) && (!state.completed ==> looping)
    }

    /** Rehydrates a saga from a recovered state; a completed saga gets no update loop. */
    constructor Rehydrate(id: string, state: SagaState, log: MemoryLog)
      ensures this.id == id && this.log == log && this.state == state
      ensures looping == !state.completed && !closed
    {
      this.id, this.log, this.state := id, log, state;
      looping := !state.completed;
      closed := false;
    }

    constructor Start(id: string, state: SagaState, log: MemoryLog)
      ensures this.id == id && this.log == log && this.state == state && looping && !closed
    {
      this.id, this.log, this.state := id, log, state;
      looping := true;
      closed := false;
    }

    /** logMessage: on failure the saga goes back to a copy made before the message was applied. */
    method UpdateSaga(m: Msg, fault: bool) returns (err: Option<SagaError>)
      requires Valid() && looping && !closed
      modifies this, state, log
      ensures Valid() && closed == (m.kind == EndSaga)
      ensures err == None ==> Apply(old(state.Value()), m) == Ok(state.Value())
      ensures err == None ==> id in log.sagas && log.sagas[id] == old(log.sagas[id]) + [m]
      ensures err != None ==> Value() == old(Value()) && log.sagas == old(log.sagas)
      ensures Value() == LogStep(old(Value()), Offer(m, fault))
      ensures state == old(state) || fresh(state)
      ensures forall i <- log.sagas.Keys + old(log.sagas.Keys) | i != id ::
                i in log.sagas && i in old(log.sagas) && log.sagas[i] == old(log.sagas[i])
      ensures err == match Apply(old(state.Value()), m)
                     case Err(e) => Some(e)
                     case Ok(_) => if fault then Some(LogError) else None
    {
      RecoveredStatesAreOrdered(id, log.sagas[id]);
      LogStepKeepsRecoverable(id, Value(), Offer(m, fault));
      var oldState := new SagaState.Copy(state);
      err := state.Update(m);
      if err == None {
        err := log.LogMessage(m, fault);
      }
      if err != None {
        state := oldState;
      }
      if m.kind == EndSaga {
        closed := true;
      }
    }
  }

  /** newSaga: nothing is returned and nothing is logged when the id is empty or the first write is lost. */
  method NewSaga(id: string, job: Option<Bytes>, log: MemoryLog, fault: bool)
    returns (saga: Saga?, err: Option<SagaError>)
    modifies log
    ensures err == if id == "" then Some(InvalidMessage) else if fault then Some(LogError) else None
    ensures err != None ==> saga == null && log.sagas == old(log.sagas)
    ensures err == None ==>
      && saga != null && fresh(saga) && fresh(saga.state) && saga.Valid() && saga.looping && !saga.closed
      && saga.id == id && saga.log == log
      && saga.Value() == Logged(Initial(id, job), [StartSagaMsg(id, job)])
      && log.sagas == old(log.sagas)[id := [StartSagaMsg(id, job)]]
  {
    if id == "" { return null, Some(InvalidMessage); }
    var state := new SagaState(id, job);
    err := log.StartSaga(id, job, fault);
    if err != None { return null, err; }
    saga := new Saga.Start(id, state, log);
    FreshSagaIsRecoverable(id, job);
  }

  /** recoverState: null when the log knows no such saga, an error when the log does not replay. */
  method RecoverState(id: string, log: MemoryLog) returns (state: SagaState?, failed: bool)
    ensures match Recover(id, if id in log.sagas then log.sagas[id] else [])
            case Missing => state == null && !failed
            case Corrupt => state == null && failed
            case Recovered(s) => !failed && state != null && fresh(state) && state.Value() == s
  {
    var msgs := log.GetMessages(id);
    if msgs == [] { return null, false; }
    if msgs[0].kind != StartSaga || id == "" { return null, true; }
    var st := new SagaState(id, msgs[0].data);
    for i := 0 to |msgs|
      invariant Replay(Initial(id, msgs[0].data), msgs) == Replay(st.Value(), msgs[i..])
    {
      if msgs[i].kind != StartSaga {
        var err := st.Update(msgs[i]);
        if err != None { return null, true; }
      }
      assert msgs[i..][1..] == msgs[i + 1..];
    }
    return st, false;
  }

  datatype RecoveryType = RollbackRecovery | ForwardRecovery

  /** RecoverSagaState. Under rollback a saga left in an unsafe state is aborted first; the AbortSaga message
      is only ever sent to a saga whose update loop runs, and it is refused only by the log. */
  method RecoverSagaState(id: string, kind: RecoveryType, log: MemoryLog, fault: bool)
    returns (saga: Saga?, failed: bool)
    modifies log
    ensures match Recover(id, old(if id in log.sagas then log.sagas[id] else []))
            case Missing => saga == null && !failed && log.sagas == old(log.sagas)
            case Corrupt => saga == null && failed && log.sagas == old(log.sagas)
            case Recovered(s) =>
              var unsafe := kind == RollbackRecovery && !Safe(s);
              && failed == (unsafe && fault)
              && (failed ==> saga == null && log.sagas == old(log.sagas))
              && (!failed ==>
                    && saga != null && fresh(saga) && saga.id == id && saga.log == log && saga.Valid()
                    && !saga.closed && saga.looping == !s.completed
                    && saga.state.Value() == (if unsafe then s.(aborted := true) else s)
                    && log.sagas[id] == old(log.sagas[id]) + (if unsafe then [Msg(id, AbortSaga, "", None)] else [])
                    && (kind == RollbackRecovery ==> Safe(saga.state.Value())))
  {
    var state: SagaState?;
    state, failed := RecoverState(id, log);
    if failed || state == null { return null, failed; }
    RecoveredStatesAreOrdered(id, log.sagas[id]);
    saga := new Saga.Rehydrate(id, state, log);
    if kind == RollbackRecovery {
      var safe := state.InSafeState();
      if !safe {
        var err := saga.UpdateSaga(Msg(id, AbortSaga, "", None), fault);
        if err != None { return null, true; }
      }
    }
    return saga, false;
  }
}
