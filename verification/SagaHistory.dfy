/** A reference definition of saga state that never folds: a state is what its log says happened.
    The main theorem ties it to the transition function: a log replays exactly when every message was
    admissible given the messages before it, and it then replays to the state read off the history. */
module SagaHistory {
  import opened Wrappers
  import opened SagaSpec

  ghost predicate Said(log: seq<Msg>, kind: MsgKind) {
    exists m :: m in log && m.kind == kind
  }

  ghost predicate SaidOf(log: seq<Msg>, kind: MsgKind, t: string) {
    exists m :: m in log && m.kind == kind && m.taskId == t
  }

  ghost function StartedTasks(log: seq<Msg>): set<string> {
    set m | m in log && m.kind == StartTask :: m.taskId
  }

  ghost function TasksWithData(log: seq<Msg>): set<string> {
    set m | m in log && IsTaskKind(m.kind) && m.data.Some? :: m.taskId
  }

  /** The data of the last message of `kind` for `t` that carried any. */
  ghost function LastData(log: seq<Msg>, kind: MsgKind, t: string): Option<Bytes> {
    if log == [] then None else
    var m := log[|log| - 1];
    if m.kind == kind && m.taskId == t && m.data.Some? then m.data else LastData(log[..|log| - 1], kind, t)
  }

  ghost function FlagsFromHistory(log: seq<Msg>, t: string): Flags {
    Flags(SaidOf(log, StartTask, t), SaidOf(log, EndTask, t),
          SaidOf(log, StartCompTask, t), SaidOf(log, EndCompTask, t))
  }

  ghost function DataFromHistory(log: seq<Msg>, t: string): TaskData {
    TaskData(LastData(log, StartTask, t), LastData(log, EndTask, t),
             LastData(log, StartCompTask, t), LastData(log, EndCompTask, t))
  }

  ghost function HistoryFlags(log: seq<Msg>): map<string, Flags> {
    map t | t in StartedTasks(log) :: FlagsFromHistory(log, t)
  }

  ghost function HistoryData(log: seq<Msg>): map<string, TaskData> {
    map t | t in TasksWithData(log) :: DataFromHistory(log, t)
  }

  ghost function HistoryState(id: string, job: Option<Bytes>, log: seq<Msg>): State {
    State(id, job, HistoryFlags(log), HistoryData(log), Said(log, AbortSaga), Said(log, EndSaga))
  }

  /** May `m` follow `log`?  Task work stops at EndSaga; forward work stops at AbortSaga and compensation
      starts there; ends follow starts; nothing finished is started again; EndSaga needs every task done. */
  ghost predicate Admissible(id: string, log: seq<Msg>, m: Msg) {
    && m.sagaId == id
    && (IsTaskKind(m.kind) ==> m.taskId != "" && !Said(log, EndSaga))
    && match m.kind
       case StartSaga => false
       case EndSaga =>
         forall t :: t in StartedTasks(log) ==>
                       if Said(log, AbortSaga) then SaidOf(log, StartCompTask, t) && SaidOf(log, EndCompTask, t)
                       else SaidOf(log, EndTask, t)
       case AbortSaga => !Said(log, EndSaga)
       case StartTask => !Said(log, AbortSaga) && !SaidOf(log, EndTask, m.taskId)
       case EndTask => !Said(log, AbortSaga) && SaidOf(log, StartTask, m.taskId)
       case StartCompTask =>
         Said(log, AbortSaga) && SaidOf(log, StartTask, m.taskId) && !SaidOf(log, EndCompTask, m.taskId)
       case EndCompTask =>
         Said(log, AbortSaga) && SaidOf(log, StartTask, m.taskId) && SaidOf(log, StartCompTask, m.taskId)
  }

  ghost predicate WellFormed(id: string, log: seq<Msg>) {
    forall i :: 0 <= i < |log| && log[i].kind != StartSaga ==> Admissible(id, log[..i], log[i])
  }

  lemma SaidAppend(log: seq<Msg>, m: Msg)
    ensures forall k :: Said(log + [m], k) <==> Said(log, k) || m.kind == k
    ensures forall k, t :: SaidOf(log + [m], k, t) <==> SaidOf(log, k, t) || (m.kind == k && m.taskId == t)
    ensures forall k, t :: LastData(log + [m], k, t) ==
                           if m.kind == k && m.taskId == t && m.data.Some? then m.data else LastData(log, k, t)
    ensures StartedTasks(log + [m]) == StartedTasks(log) + (if m.kind == StartTask then {m.taskId} else {})
    ensures TasksWithData(log + [m]) ==
            TasksWithData(log) + (if IsTaskKind(m.kind) && m.data.Some? then {m.taskId} else {})
  {
    var log' := log + [m];
    assert log'[..|log'| - 1] == log && log'[|log|] == m;
    forall k | m.kind == k ensures Said(log', k) { assert m in log'; }
    forall k, t | m.kind == k && m.taskId == t ensures SaidOf(log', k, t) { assert m in log'; }
    forall k | Said(log, k) ensures Said(log', k) { var x :| x in log && x.kind == k; assert x in log'; }
    forall k, t | SaidOf(log, k, t) ensures SaidOf(log', k, t) {
      var x :| x in log && x.kind == k && x.taskId == t; assert x in log';
    }
    assert forall x :: x in log' <==> x in log || x == m;
  }

  lemma WellFormedAppend(id: string, log: seq<Msg>, m: Msg)
    ensures WellFormed(id, log + [m]) <==> WellFormed(id, log) && (m.kind == StartSaga || Admissible(id, log, m))
  {
    var log' := log + [m];
    assert forall i :: 0 <= i < |log| ==> log'[..i] == log[..i] && log'[i] == log[i];
    assert log'[..|log|] == log && log'[|log|] == m;
  }

  /** Nothing is said of a task that was never started. */
  ghost predicate StartsFirst(log: seq<Msg>) {
    forall m :: m in log && IsTaskKind(m.kind) ==> m.taskId in StartedTasks(log)
  }

  lemma ApplyIsAdmissible(id: string, job: Option<Bytes>, log: seq<Msg>, m: Msg)
    requires m.kind != StartSaga && StartsFirst(log)
    ensures Apply(HistoryState(id, job, log), m).Ok? <==> Admissible(id, log, m)
  {
    var s := HistoryState(id, job, log);
    assert SaidOf(log, StartTask, m.taskId) <==> m.taskId in StartedTasks(log);
    assert s.FlagsOf(m.taskId) == FlagsFromHistory(log, m.taskId);
    if m.kind == EndSaga {
      assert forall t :: t in s.taskState <==> t in StartedTasks(log);
      assert forall t :: t in StartedTasks(log) ==> s.taskState[t] == FlagsFromHistory(log, t);
    }
  }

  function Raise(f: Flags, kind: MsgKind): Flags {
    match kind
    case StartTask => f.(started := true)
    case EndTask => f.(completed := true)
    case StartCompTask => f.(compStarted := true)
    case EndCompTask => f.(compCompleted := true)
    case _ => f
  }

  lemma TaskHistoryAppend(log: seq<Msg>, m: Msg, t: string)
    ensures FlagsFromHistory(log + [m], t) ==
            if m.taskId == t then Raise(FlagsFromHistory(log, t), m.kind) else FlagsFromHistory(log, t)
    ensures DataFromHistory(log + [m], t) ==
            if m.taskId == t && m.data.Some? then WithData(DataFromHistory(log, t), m.kind, m.data.value)
            else DataFromHistory(log, t)
  {
    SaidAppend(log, m);
  }

  /** An accepted task message raises one flag of its task and stores its data, whatever its kind. */
  lemma ApplyRaises(s: State, m: Msg)
    requires Apply(s, m).Ok?
    requires m.kind == StartTask ==> var f := s.FlagsOf(m.taskId); !f.compStarted && !f.compCompleted
    ensures Apply(s, m).value.taskState ==
            if IsTaskKind(m.kind) then s.taskState[m.taskId := Raise(s.FlagsOf(m.taskId), m.kind)] else s.taskState
    ensures Apply(s, m).value.taskData == if IsTaskKind(m.kind) then AddData(s, m) else s.taskData
  {
  }

  lemma FlagsOfHistory(id: string, job: Option<Bytes>, log: seq<Msg>, t: string)
    requires StartsFirst(log)
    ensures HistoryState(id, job, log).FlagsOf(t) == FlagsFromHistory(log, t)
  {
  }

  lemma DataOfHistory(id: string, job: Option<Bytes>, log: seq<Msg>, t: string)
    ensures HistoryState(id, job, log).DataOf(t) == DataFromHistory(log, t)
  {
    if t !in TasksWithData(log) { NoData(log, t); }
  }

  lemma FlagsExtendHistory(log: seq<Msg>, m: Msg)
    requires IsTaskKind(m.kind) && m.kind != StartTask ==> m.taskId in StartedTasks(log)
    ensures HistoryFlags(log + [m]) ==
            if IsTaskKind(m.kind) then HistoryFlags(log)[m.taskId := Raise(FlagsFromHistory(log, m.taskId), m.kind)]
            else HistoryFlags(log)
  {
    assert StartedTasks(log + [m]) == StartedTasks(log) + (if m.kind == StartTask then {m.taskId} else {}) by {
      SaidAppend(log, m);
    }
    forall t | t in StartedTasks(log + [m]) { TaskHistoryAppend(log, m, t); }
  }

  lemma TasksWithDataAppend(log: seq<Msg>, m: Msg)
    ensures TasksWithData(log + [m]) ==
            if IsTaskKind(m.kind) && m.data.Some? then TasksWithData(log) + {m.taskId} else TasksWithData(log)
  {
    SaidAppend(log, m);
  }

  lemma DataAppend(log: seq<Msg>, m: Msg, t: string)
    ensures DataFromHistory(log + [m], t) ==
            if m.taskId == t && m.data.Some? then WithData(DataFromHistory(log, t), m.kind, m.data.value)
            else DataFromHistory(log, t)
  {
    TaskHistoryAppend(log, m, t);
  }

  lemma DataExtendsHistory(log: seq<Msg>, m: Msg)
    ensures HistoryData(log + [m]) ==
            if IsTaskKind(m.kind) && m.data.Some?
            then HistoryData(log)[m.taskId := WithData(DataFromHistory(log, m.taskId), m.kind, m.data.value)]
            else HistoryData(log)
  {
    TasksWithDataAppend(log, m);
    forall t | t in TasksWithData(log + [m])
      ensures DataFromHistory(log + [m], t) ==
              if m.taskId == t && m.data.Some? then WithData(DataFromHistory(log, t), m.kind, m.data.value)
              else DataFromHistory(log, t)
    {
      DataAppend(log, m, t);
    }
  }

  lemma ApplyExtendsHistory(id: string, job: Option<Bytes>, log: seq<Msg>, m: Msg)
    requires m.kind != StartSaga && StartsFirst(log) && Admissible(id, log, m)
    requires !Said(log, AbortSaga) ==> forall x :: x in log ==> x.kind !in {StartCompTask, EndCompTask}
    requires Apply(HistoryState(id, job, log), m).Ok?
    ensures Apply(HistoryState(id, job, log), m) == Ok(HistoryState(id, job, log + [m]))
  {
    var s, s' := HistoryState(id, job, log), HistoryState(id, job, log + [m]);
    FlagsOfHistory(id, job, log, m.taskId);
    DataOfHistory(id, job, log, m.taskId);
    ApplyRaises(s, m);
    FlagsExtendHistory(log, m);
    DataExtendsHistory(log, m);
    ApplyEnds(s, m);
    SaidOneMore(log, m, AbortSaga);
    SaidOneMore(log, m, EndSaga);
  }

  lemma SaidOneMore(log: seq<Msg>, m: Msg, kind: MsgKind)
    ensures Said(log + [m], kind) <==> Said(log, kind) || m.kind == kind
  {
    SaidAppend(log, m);
  }

  /** What an accepted message leaves alone. */
  lemma ApplyEnds(s: State, m: Msg)
    requires Apply(s, m).Ok?
    ensures var r := Apply(s, m).value;
      && r.aborted == (s.aborted || m.kind == AbortSaga) && r.completed == (s.completed || m.kind == EndSaga)
      && r.sagaId == s.sagaId && r.job == s.job
  {
  }

  lemma {:induction false} NoData(log: seq<Msg>, t: string)
    requires t !in TasksWithData(log)
    ensures DataFromHistory(log, t) == NO_DATA
  {
    if log != [] {
      var init := log[..|log| - 1];
      assert log == init + [log[|log| - 1]];
      SaidAppend(init, log[|log| - 1]);
      NoData(init, t);
    }
  }

  lemma {:induction false} WellFormedHistory(id: string, log: seq<Msg>)
    requires WellFormed(id, log)
    ensures StartsFirst(log)
    ensures !Said(log, AbortSaga) ==> forall x :: x in log ==> x.kind !in {StartCompTask, EndCompTask}
  {
    if log != [] {
      var init, m := log[..|log| - 1], log[|log| - 1];
      assert log == init + [m];
      WellFormedAppend(id, init, m);
      WellFormedHistory(id, init);
      SaidAppend(init, m);
      assert SaidOf(init, StartTask, m.taskId) <==> m.taskId in StartedTasks(init);
    }
  }

  lemma StartSagaAddsNoHistory(id: string, job: Option<Bytes>, log: seq<Msg>, m: Msg)
    requires m.kind == StartSaga
    ensures HistoryState(id, job, log + [m]) == HistoryState(id, job, log)
  {
    FlagsExtendHistory(log, m);
    DataExtendsHistory(log, m);
    assert Said(log + [m], AbortSaga) == Said(log, AbortSaga) && Said(log + [m], EndSaga) == Said(log, EndSaga) by {
      SaidAppend(log, m);
    }
  }

  /** A log replays exactly when each message was admissible after the ones before it, and the replayed
      state is the one its history describes: flags, last data, aborted and completed. */
  lemma {:induction false} ReplayIsHistory(id: string, job: Option<Bytes>, log: seq<Msg>)
    ensures Replay(Initial(id, job), log).Ok? <==> WellFormed(id, log)
    ensures WellFormed(id, log) ==> Replay(Initial(id, job), log) == Ok(HistoryState(id, job, log))
  {
    if log == [] {
      assert HistoryState(id, job, log) == Initial(id, job);
    } else {
      var init, m := log[..|log| - 1], log[|log| - 1];
      assert log == init + [m];
      ReplayIsHistory(id, job, init);
      ReplayAppend(Initial(id, job), init, m);
      WellFormedAppend(id, init, m);
      if WellFormed(id, init) {
        WellFormedHistory(id, init);
        if m.kind == StartSaga {
          StartSagaAddsNoHistory(id, job, init, m);
        } else {
          ApplyIsAdmissible(id, job, init, m);
          if Admissible(id, init, m) { ApplyExtendsHistory(id, job, init, m); }
        }
      }
    }
  }
}
