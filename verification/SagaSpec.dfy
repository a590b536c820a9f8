/** The values of the saga package: messages, saga state, and the transition one message makes. */
module SagaSpec {
  import opened Wrappers

  newtype byte = x: int | 0 <= x < 256

  type Bytes = seq<byte>

  datatype MsgKind = StartSaga | EndSaga | AbortSaga | StartTask | EndTask | StartCompTask | EndCompTask

  predicate IsTaskKind(k: MsgKind) { k != StartSaga && k != EndSaga && k != AbortSaga }

  /** `data` is None where the Go slice is nil. */
  datatype Msg = Msg(sagaId: string, kind: MsgKind, taskId: string, data: Option<Bytes>)

  function StartSagaMsg(id: string, job: Option<Bytes>): Msg { Msg(id, StartSaga, "", job) }

  /** The flag byte of one task, one boolean a bit. */
  datatype Flags = Flags(started: bool, completed: bool, compStarted: bool, compCompleted: bool)

  const NO_FLAGS := Flags(false, false, false, false)

  datatype TaskData = TaskData(start: Option<Bytes>, end: Option<Bytes>,
                               compStart: Option<Bytes>, compEnd: Option<Bytes>)

  const NO_DATA := TaskData(None, None, None, None)

  datatype State = State(sagaId: string, job: Option<Bytes>, taskState: map<string, Flags>,
                         taskData: map<string, TaskData>, aborted: bool, completed: bool)
  {
    /** Reading an absent key of a Go map of flags yields the zero byte. */
    function FlagsOf(t: string): Flags { if t in taskState then taskState[t] else NO_FLAGS }

    function DataOf(t: string): TaskData { if t in taskData then taskData[t] else NO_DATA }

    predicate MayEnd() {
      forall t <- taskState ::
        if aborted then taskState[t].compStarted && taskState[t].compCompleted else taskState[t].completed
    }
  }

  datatype SagaError = InvalidMessage | InvalidState | LogError

  function WithData(d: TaskData, kind: MsgKind, data: Bytes): TaskData {
    match kind
    case StartTask => d.(start := Some(data))
    case EndTask => d.(end := Some(data))
    case StartCompTask => d.(compStart := Some(data))
    case EndCompTask => d.(compEnd := Some(data))
    case _ => d
  }

  function AddData(s: State, m: Msg): map<string, TaskData> {
    match m.data
    case None => s.taskData
    case Some(b) => s.taskData[m.taskId := WithData(s.DataOf(m.taskId), m.kind, b)]
  }

  function Initial(id: string, job: Option<Bytes>): State { State(id, job, map[], map[], false, false) }

  /** The state after `m`, or the error with which `m` is refused. */
  function Apply(s: State, m: Msg): Result<State, SagaError> {
    if m.sagaId != s.sagaId then Err(InvalidMessage) else
    match m.kind
    case StartSaga => Err(InvalidState)
    case EndSaga => if s.MayEnd() then Ok(s.(completed := true)) else Err(InvalidState)
    case AbortSaga => if s.completed then Err(InvalidState) else Ok(s.(aborted := true))
    case StartTask =>
      if m.taskId == "" then Err(InvalidMessage)
      else if s.completed || s.aborted || s.FlagsOf(m.taskId).completed then Err(InvalidState)
      else Ok(s.(taskData := AddData(s, m), taskState := s.taskState[m.taskId := Flags(true, false, false, false)]))
    case EndTask =>
      if m.taskId == "" then Err(InvalidMessage)
      else if s.completed || s.aborted || !s.FlagsOf(m.taskId).started then Err(InvalidState)
      else Ok(s.(taskData := AddData(s, m),
                 taskState := s.taskState[m.taskId := s.FlagsOf(m.taskId).(completed := true)]))
    case StartCompTask =>
      if m.taskId == "" then Err(InvalidMessage)
      else if s.completed || !s.aborted || !s.FlagsOf(m.taskId).started || s.FlagsOf(m.taskId).compCompleted then
        Err(InvalidState)
      else Ok(s.(taskData := AddData(s, m),
                 taskState := s.taskState[m.taskId := s.FlagsOf(m.taskId).(compStarted := true)]))
    case EndCompTask =>
      if m.taskId == "" then Err(InvalidMessage)
      else if s.completed || !s.aborted || !s.FlagsOf(m.taskId).started || !s.FlagsOf(m.taskId).compStarted then
        Err(InvalidState)
      else Ok(s.(taskData := AddData(s, m),
                 taskState := s.taskState[m.taskId := s.FlagsOf(m.taskId).(compCompleted := true)]))
  }

  /** A message is refused as invalid exactly for naming another saga, or no task where one is needed; any other
      refusal is for the state the saga is in. */
  lemma RefusalSaysWhy(s: State, m: Msg)
    requires Apply(s, m).Err?
    ensures Apply(s, m).error == InvalidMessage <==> m.sagaId != s.sagaId || (IsTaskKind(m.kind) && m.taskId == "")
    ensures Apply(s, m).error != InvalidMessage ==> Apply(s, m).error == InvalidState
  {
  }

  /** Folds a list of logged messages, skipping StartSaga messages as recovery does. */
  function Replay(s: State, msgs: seq<Msg>): Result<State, SagaError>
    decreases |msgs|
  {
    if msgs == [] then Ok(s)
    else if msgs[0].kind == StartSaga then Replay(s, msgs[1..])
    else match Apply(s, msgs[0])
         case Err(e) => Err(e)
         case Ok(s') => Replay(s', msgs[1..])
  }

  datatype Recovery = Missing | Corrupt | Recovered(state: State)

  /** What a log's message list for `id` recovers to. */
  function Recover(id: string, msgs: seq<Msg>): Recovery {
    if msgs == [] then Missing
    else if msgs[0].kind != StartSaga || id == "" then Corrupt
    else match Replay(Initial(id, msgs[0].data), msgs)
         case Err(_) => Corrupt
         case Ok(s) => Recovered(s)
  }

  /** A saga may be resumed as it stands: it was aborted, or no started task is left unfinished. */
  predicate Safe(s: State) {
    s.aborted || forall t <- s.taskState :: s.taskState[t].started ==> s.taskState[t].completed
  }

  /** Replay consumes a list from the front; the same fold seen from its last message. */
  lemma {:induction false} ReplayAppend(s: State, msgs: seq<Msg>, m: Msg)
    ensures Replay(s, msgs + [m]) ==
            if Replay(s, msgs).Err? || m.kind == StartSaga then Replay(s, msgs) else Apply(Replay(s, msgs).value, m)
    decreases |msgs|
  {
    if msgs == [] {
      assert (msgs + [m])[1..] == [];
    } else {
      assert (msgs + [m])[1..] == msgs[1..] + [m];
      if msgs[0].kind == StartSaga {
        ReplayAppend(s, msgs[1..], m);
      } else if Apply(s, msgs[0]).Ok? {
        ReplayAppend(Apply(s, msgs[0]).value, msgs[1..], m);
      }
    }
  }

  // -------------------------------------------------------------------------------------------
  // What every reachable state satisfies.

  ghost predicate FlagOrder(s: State) {
    && (forall t <- s.taskState ::
          var f := s.taskState[t];
          t != "" && f.started && (f.compStarted ==> s.aborted) && (f.compCompleted ==> f.compStarted))
    && (forall t <- s.taskData :: t in s.taskState)
    && (s.completed ==> s.MayEnd())
  }

  lemma ApplyKeepsFlagOrder(s: State, m: Msg)
    requires FlagOrder(s) && Apply(s, m).Ok?
    ensures FlagOrder(Apply(s, m).value)
  {
  }

  lemma {:induction false} ReplayKeepsFlagOrder(s: State, msgs: seq<Msg>)
    requires FlagOrder(s) && Replay(s, msgs).Ok?
    ensures FlagOrder(Replay(s, msgs).value)
    decreases |msgs|
  {
    if msgs != [] {
      if msgs[0].kind == StartSaga {
        ReplayKeepsFlagOrder(s, msgs[1..]);
      } else {
        ReplayKeepsFlagOrder(Apply(s, msgs[0]).value, msgs[1..]);
      }
    }
  }

  /** Whatever a log holds, a state recovered from it respects the order of the flags; so a recovered
      state that is not safe to resume is not completed. */
  lemma RecoveredStatesAreOrdered(id: string, msgs: seq<Msg>)
    requires Recover(id, msgs).Recovered?
    ensures FlagOrder(Recover(id, msgs).state) && Recover(id, msgs).state.sagaId == id
    ensures !Safe(Recover(id, msgs).state) ==> !Recover(id, msgs).state.completed
  {
    ReplayKeepsFlagOrder(Initial(id, msgs[0].data), msgs);
    ReplayKeepsId(Initial(id, msgs[0].data), msgs);
  }

  lemma {:induction false} ReplayKeepsId(s: State, msgs: seq<Msg>)
    requires Replay(s, msgs).Ok?
    ensures Replay(s, msgs).value.sagaId == s.sagaId && Replay(s, msgs).value.job == s.job
    decreases |msgs|
  {
    if msgs != [] {
      if msgs[0].kind == StartSaga {
        ReplayKeepsId(s, msgs[1..]);
      } else {
        ReplayKeepsId(Apply(s, msgs[0]).value, msgs[1..]);
      }
    }
  }

  /** An accepted message is accepted again at once, and the second time changes nothing. */
  lemma AcceptedMessageIsIdempotent(s: State, m: Msg)
    requires Apply(s, m).Ok?
    ensures Apply(Apply(s, m).value, m) == Apply(s, m)
  {
    var s1 := Apply(s, m).value;
    if m.kind !in {EndSaga, AbortSaga} {
      var s2 := Apply(s1, m).value;
      assert s2.taskState == s1.taskState;
      assert s2.taskData == s1.taskData;
    }
  }

  /** A completed saga is frozen: no message list changes it, and only EndSaga is still accepted. */
  lemma {:induction false} CompletedSagaIsFrozen(s: State, msgs: seq<Msg>)
    requires FlagOrder(s) && s.completed
    ensures Replay(s, msgs).Ok? <==>
            forall m <- msgs :: m.kind == StartSaga || (m.kind == EndSaga && m.sagaId == s.sagaId)
    ensures Replay(s, msgs).Ok? ==> Replay(s, msgs).value == s
    decreases |msgs|
  {
    if msgs != [] {
      assert msgs == [msgs[0]] + msgs[1..];
      if msgs[0].kind == StartSaga || Apply(s, msgs[0]).Ok? {
        CompletedSagaIsFrozen(s, msgs[1..]);
      }
    }
  }
}
