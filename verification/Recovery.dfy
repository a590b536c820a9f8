/** Recovery end to end: what the file log, the saga and the job built from it come to after a restart. */
module Recovery {
  import opened Wrappers
  import opened SagaSpec
  import opened SagaHistory
  import opened FileLogSpec
  import opened JobSpec
  import JobState
  import Saga
  import Sequences
  import J = JobProtocol

  // -------------------------------------------------------------------------------------------
  // From the log to the job.

  /** In a recovered state a task is completed exactly when the log has an EndTask for it. */
  lemma RecoveredEndTasks(id: string, log: seq<Msg>, t: string)
    requires Recover(id, log).Recovered?
    ensures Recover(id, log).state.FlagsOf(t).completed <==> SaidOf(log, EndTask, t)
  {
    ReplayIsHistory(id, log[0].data, log);
    WellFormedHistory(id, log);
    assert SaidOf(log, EndTask, t) ==> t in StartedTasks(log);
  }

  function NewWorld(job: Job, saga: State): J.World {
    J.World(job, saga, false, map[], 0, false, J.NotKilling, J.Idle, false, false, {})
  }

  /** A job rebuilt from its log starts like a new one, and has left to do exactly the tasks the log has no EndTask
      for. */
  lemma RebuiltJob(id: string, log: seq<Msg>, ids: seq<string>, job: Job)
    requires Recover(id, log).Recovered? && !Recover(id, log).state.aborted && !Recover(id, log).state.completed
    requires JobState.BuiltFrom(job, ids, Recover(id, log).state) && "" !in ids
    requires forall t <- Recover(id, log).state.taskState :: t in ids
    ensures J.Init(NewWorld(job, Recover(id, log).state))
    ensures forall i :: 0 <= i < |ids| ==>
              job.tasks[i].status == if SaidOf(log, EndTask, ids[i]) then Completed else NotStarted
  {
    var saga := Recover(id, log).state;
    RecoveredStatesAreOrdered(id, log);
    forall i | 0 <= i < |ids| ensures saga.FlagsOf(ids[i]).completed <==> SaidOf(log, EndTask, ids[i]) {
      RecoveredEndTasks(id, log, ids[i]);
    }
    forall t | t in saga.taskState ensures Has(job.tasks, t) {
      var i :| 0 <= i < |ids| && ids[i] == t;
      assert job.tasks[i].id == t;
    }
  }

  // -------------------------------------------------------------------------------------------
  // From the log to the saga.

  /** A log recovers exactly if it starts with a StartSaga and every message was admissible after those before it; it
      then recovers to the state that the history shows. */
  lemma RecoverIsHistory(id: string, log: seq<Msg>)
    ensures Recover(id, log).Missing? <==> log == []
    ensures Recover(id, log).Recovered? <==> log != [] && log[0].kind == StartSaga && id != "" && WellFormed(id, log)
    ensures Recover(id, log).Recovered? ==> Recover(id, log).state == HistoryState(id, log[0].data, log)
  {
    if log != [] { ReplayIsHistory(id, log[0].data, log); }
  }

  /** A recovered saga may be resumed as it stands exactly when its log has an AbortSaga, or an EndTask for every task
      that it has a StartTask for. */
  lemma SafeIffLogged(id: string, log: seq<Msg>)
    requires Recover(id, log).Recovered?
    ensures Safe(Recover(id, log).state) <==>
            Said(log, AbortSaga) || forall t :: SaidOf(log, StartTask, t) ==> SaidOf(log, EndTask, t)
  {
    var s := Recover(id, log).state;
    RecoverIsHistory(id, log);
    forall t ensures SaidOf(log, StartTask, t) <==> t in s.taskState { TaskIsStarted(log, t); }
  }

  lemma TaskIsStarted(log: seq<Msg>, t: string)
    ensures SaidOf(log, StartTask, t) <==> t in StartedTasks(log)
  {
  }

  /** The messages that are accepted and not lost, of those offered to a saga whose log is `log`. */
  ghost function Kept(id: string, log: seq<Msg>, offers: seq<Saga.Offer>): seq<Msg>
    decreases |offers|
  {
    if offers == [] then [] else
    var m := offers[0].msg;
    if Admissible(id, log, m) && !offers[0].fault then [m] + Kept(id, log + [m], offers[1..])
    else Kept(id, log, offers[1..])
  }

  lemma AcceptedIffAdmissible(id: string, l: Saga.Logged, m: Msg)
    requires Saga.Recoverable(id, l)
    ensures Apply(l.state, m).Ok? <==> Admissible(id, l.log, m)
  {
    RecoverIsHistory(id, l.log);
    if m.kind != StartSaga {
      WellFormedHistory(id, l.log);
      ApplyIsAdmissible(id, l.log[0].data, l.log, m);
    }
  }

  /** One offer: the message is written behind the others exactly if it is admissible and not lost. */
  lemma StepKeeps(id: string, l: Saga.Logged, o: Saga.Offer)
    requires Saga.Recoverable(id, l)
    ensures Saga.LogStep(l, o).log == if Admissible(id, l.log, o.msg) && !o.fault then l.log + [o.msg] else l.log
  {
    AcceptedIffAdmissible(id, l, o.msg);
  }

  lemma {:induction false} LogGrowsByKept(id: string, l: Saga.Logged, offers: seq<Saga.Offer>)
    requires Saga.Recoverable(id, l)
    ensures Saga.LogRun(l, offers).log == l.log + Kept(id, l.log, offers)
    decreases |offers|
  {
    if offers == [] {
      assert l.log + [] == l.log;
    } else {
      var m, l1 := offers[0].msg, Saga.LogStep(l, offers[0]);
      StepKeeps(id, l, offers[0]);
      Saga.LogStepKeepsRecoverable(id, l, offers[0]);
      LogGrowsByKept(id, l1, offers[1..]);
      Sequences.ConcatAssociates(l.log, [m], Kept(id, l.log + [m], offers[1..]));
    }
  }

  /** Whatever a saga is offered, its log ends up as it was, followed by exactly the messages that were admissible
      after those before them and whose write was not lost, in order; and its state is what that log shows. */
  lemma LogHoldsKept(id: string, l: Saga.Logged, offers: seq<Saga.Offer>)
    requires Saga.Recoverable(id, l)
    ensures var l' := Saga.LogRun(l, offers);
      l'.log == l.log + Kept(id, l.log, offers) && l'.state == HistoryState(id, l.log[0].data, l'.log)
  {
    var l' := Saga.LogRun(l, offers);
    LogGrowsByKept(id, l, offers);
    LogKeepsStart(l, offers);
    Saga.LogRunKeepsRecoverable(id, l, offers);
    RecoverIsHistory(id, l'.log);
  }

  // -------------------------------------------------------------------------------------------
  // From the file to the saga.

  lemma RecoverAsRead(id: string, log: seq<Msg>)
    requires Recover(id, log).Recovered?
    ensures Recover(id, ReadMsgs(log)).Recovered? && SameFlags(Recover(id, log).state, Recover(id, ReadMsgs(log)).state)
    ensures log[0].data.Some? && TasksCarryData(log) ==> Recover(id, ReadMsgs(log)) == Recover(id, log)
  {
    ReplayAsRead(Initial(id, log[0].data), Initial(id, ReadMsgs(log)[0].data), log);
  }

  /** A new saga after some updates, with any of the log's writes lost. */
  function Updated(id: string, job: Option<Bytes>, offers: seq<Saga.Offer>): Saga.Logged {
    Saga.LogRun(Saga.Logged(Initial(id, job), [StartSagaMsg(id, job)]), offers)
  }

  /** Only the first message of the log is a StartSaga. */
  ghost predicate StartsOnce(log: seq<Msg>) {
    log != [] && log[0].kind == StartSaga && forall i :: 1 <= i < |log| ==> log[i].kind != StartSaga
  }

  lemma {:induction false} LogStartsOnce(l: Saga.Logged, offers: seq<Saga.Offer>)
    requires StartsOnce(l.log)
    ensures StartsOnce(Saga.LogRun(l, offers).log)
    decreases |offers|
  {
    if offers != [] { LogStartsOnce(Saga.LogStep(l, offers[0]), offers[1..]); }
  }

  /** A saga never logs a StartSaga of its own: whatever it is offered, its log has only the first. */
  lemma SagaLogsNoStart(id: string, job: Option<Bytes>, offers: seq<Saga.Offer>)
    ensures StartsOnce(Updated(id, job, offers).log)
  {
    LogStartsOnce(Saga.Logged(Initial(id, job), [StartSagaMsg(id, job)]), offers);
  }

  /** The file holds these messages, each with its data in place and under names that are good lines. */
  ghost predicate Holds(id: string, rs: seq<Record>, files: Files, log: seq<Msg>) {
    |rs| == |log| && forall i :: 0 <= i < |rs| ==> rs[i].msg == log[i] && Sound(id, rs[i], files)
  }

  /** Whatever updates a saga saw, its file is read without error and recovers to its live flags, and to its live
      state altogether if the job and every task message carry data. */
  lemma FileRecoversLiveState(id: string, job: Option<Bytes>, offers: seq<Saga.Offer>, rs: seq<Record>, files: Files)
    requires id != "" && Holds(id, rs, files, Updated(id, job, offers).log)
    ensures var l, read := Updated(id, job, offers), ParseAll(id, LogText(rs), files);
      && read.Ok? && Recover(id, read.value).Recovered? && SameFlags(l.state, Recover(id, read.value).state)
      && (job.Some? && TasksCarryData(l.log) ==> Recover(id, read.value).state == l.state)
  {
    var l := Updated(id, job, offers);
    Saga.FreshSagaIsRecoverable(id, job);
    Saga.LogRunKeepsRecoverable(id, Saga.Logged(Initial(id, job), [StartSagaMsg(id, job)]), offers);
    LogRoundTrip(id, rs, files);
    assert MsgsAsRead(rs) == ReadMsgs(l.log);
    RecoverAsRead(id, l.log);
    LogKeepsStart(Saga.Logged(Initial(id, job), [StartSagaMsg(id, job)]), offers);
  }

  lemma {:induction false} LogKeepsStart(l: Saga.Logged, offers: seq<Saga.Offer>)
    requires l.log != []
    ensures Saga.LogRun(l, offers).log != [] && Saga.LogRun(l, offers).log[0] == l.log[0]
    decreases |offers|
  {
    if offers != [] { LogKeepsStart(Saga.LogStep(l, offers[0]), offers[1..]); }
  }
}
