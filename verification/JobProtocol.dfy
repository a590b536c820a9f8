/** One job under the scheduler, as a state machine over every interleaving of the scheduler's loop with the
    goroutines it starts: the task runners, each of which logs to the job's saga on its own, and the one that
    ends the saga. The saga log is assumed never to lose a write; what workers answer is arbitrary. */
module JobProtocol {
  import opened Wrappers
  import opened JobSpec
  import opened RunStatuses
  import S = SagaSpec

  /** What runAndWait returns: the last status, whether the call itself failed, and whether the task must be
      ended because a kill request was seen. */
  datatype Outcome = Outcome(state: RunState, callErr: bool, end: bool)

  predicate IsError(o: Outcome) { o.callErr || o.state != COMPLETE }

  /** The error `run` hands to its callback. `logged`: an EndTask went to the saga. */
  datatype Answer = Answer(failed: bool, aborted: bool, logged: bool)

  datatype Phase =
    | Starting                     // about to log StartTask
    | Running(updated: bool)       // in runAndWait; `updated`: logged StartTask again with a run status
    | Ending(outcome: Outcome)     // about to log EndTask
    | Returned(answer: Answer)     // finished; the callback waits in the mailbox

  /** `last`: a failure of this attempt ends the task. `abort`: a kill request was sent to this runner. */
  datatype Runner = Runner(task: string, last: bool, phase: Phase, abort: bool)

  datatype EndPhase = Idle | Sending | Answered(ok: bool)

  /** Where the loop of killJobs stands: task `at`, with its StartTask already logged or not. */
  datatype Killing = NotKilling | KillingAt(at: nat, startLogged: bool)

  datatype World = World(
    job: Job,
    saga: S.State,
    closed: bool,                  // the saga's update channel was closed
    runners: map<nat, Runner>,     // task runners whose callback has not run
    next: nat,
    killed: bool,
    killing: Killing,
    ending: EndPhase,
    deleted: bool,                 // no longer among the jobs in progress
    panicked: bool,                // something was sent on the closed channel
    unlogged: set<string>)         // history: tasks given up as ABORTED without an EndTask

  datatype Event =
    | Schedule(id: string)
    | RunnerStarts(r: nat)
    | RunnerUpdates(r: nat, data: S.Bytes)
    | RunnerFinishes(r: nat, outcome: Outcome)
    | RunnerEnds(r: nat, data: S.Bytes)
    | Callback(r: nat, preempted: bool)
    | CheckCompleted
    | SendEndSaga
    | EndSagaCallback
    | KillJob
    | KillStep(data: S.Bytes)

  function AllDone(w: World): bool { w.job.completed == |w.job.tasks| }

  predicate LoopFree(w: World) { w.killing.NotKilling? && !w.deleted && !w.panicked }

  /** Which events may happen. A runner reports `end` only for an ABORTED status it made up itself on seeing
      the kill request sent to it. */
  predicate Enabled(w: World, e: Event) {
    !w.panicked && match e
    case Schedule(id) =>
      LoopFree(w) && Has(w.job.tasks, id) && w.job.tasks[Find(w.job.tasks, id)].status == NotStarted
    case RunnerStarts(r) => r in w.runners && w.runners[r].phase.Starting?
    case RunnerUpdates(r, _) => r in w.runners && w.runners[r].phase == Running(false)
    case RunnerFinishes(r, o) =>
      && r in w.runners && w.runners[r].phase.Running?
      && (o.end ==> w.runners[r].abort && o.state == ABORTED && !o.callErr)
    case RunnerEnds(r, _) => r in w.runners && w.runners[r].phase.Ending?
    case Callback(r, _) =>
      && LoopFree(w) && r in w.runners && w.runners[r].phase.Returned? && Has(w.job.tasks, w.runners[r].task)
    case CheckCompleted => LoopFree(w) && AllDone(w) && w.ending.Idle?
    case SendEndSaga => w.ending.Sending?
    case EndSagaCallback => LoopFree(w) && w.ending.Answered?
    case KillJob => LoopFree(w) && !w.killed
    case KillStep(_) => w.killing.KillingAt? && w.killing.at <= |w.job.tasks|
  }

  /** The saga message an event sends, if any. */
  function Sends(w: World, e: Event): Option<S.Msg>
    requires Enabled(w, e)
  {
    match e
    case RunnerStarts(r) => Some(S.Msg(w.saga.sagaId, S.StartTask, w.runners[r].task, None))
    case RunnerUpdates(r, data) => Some(S.Msg(w.saga.sagaId, S.StartTask, w.runners[r].task, Some(data)))
    case RunnerEnds(r, data) => Some(S.Msg(w.saga.sagaId, S.EndTask, w.runners[r].task, Some(data)))
    case SendEndSaga => Some(S.Msg(w.saga.sagaId, S.EndSaga, "", None))
    case KillStep(data) =>
      if w.killing.at < |w.job.tasks| && w.job.tasks[w.killing.at].status == NotStarted then
        var id := w.job.tasks[w.killing.at].id;
        Some(if w.killing.startLogged then S.Msg(w.saga.sagaId, S.EndTask, id, Some(data))
             else S.Msg(w.saga.sagaId, S.StartTask, id, None))
      else None
    case _ => None
  }

  predicate Accepts(w: World, m: S.Msg) { !w.closed && S.Apply(w.saga, m).Ok? }

  /** The saga after a send: a refused message changes nothing, and a closed channel panics. */
  function Post(w: World, m: S.Msg): World {
    if w.closed then w.(panicked := true)
    else match S.Apply(w.saga, m)
         case Ok(s) => w.(saga := s)
         case Err(_) => w
  }

  function SetPhase(w: World, r: nat, p: Phase): World
    requires r in w.runners
  {
    w.(runners := w.runners[r := w.runners[r].(phase := p)])
  }

  /** After runAndWait: log EndTask unless the task failed and will be retried. */
  function AfterRun(run: Runner, o: Outcome): Phase {
    if IsError(o) && !o.end && !run.last then Returned(Answer(true, o.state == ABORTED, false)) else Ending(o)
  }

  /** The completion callback: retry only a failure that is neither ABORTED nor the last allowed attempt. */
  function AfterCallback(w: World, r: nat, preempted: bool): World
    requires r in w.runners && w.runners[r].phase.Returned? && Has(w.job.tasks, w.runners[r].task)
  {
    var run := w.runners[r];
    var a := run.phase.answer;
    var retry := a.failed && !a.aborted && !run.last;
    w.(runners := w.runners - {r},
       job := if retry then Failed(w.job, run.task, preempted) else Finished(w.job, run.task, true),
       unlogged := if !retry && !a.logged then w.unlogged + {run.task} else w.unlogged)
  }

  function AfterKillStep(w: World, data: S.Bytes): World
    requires Enabled(w, KillStep(data))
  {
    var i := w.killing.at;
    if i == |w.job.tasks| then w.(killing := NotKilling) else
    var t := w.job.tasks[i];
    match t.status
    case Completed => w.(killing := KillingAt(i + 1, false))
    case InProgress =>
      var w' := w.(killing := KillingAt(i + 1, false));
      if t.runner.Some? && t.runner.value in w.runners then
        w'.(runners := w.runners[t.runner.value := w.runners[t.runner.value].(abort := true)])
      else w'
    case NotStarted =>
      var w' := Post(w, Sends(w, KillStep(data)).value);
      if !w.killing.startLogged then w'.(killing := KillingAt(i, true))
      else w'.(job := if Has(w.job.tasks, t.id) then Finished(w.job, t.id, false) else w.job,
               killing := KillingAt(i + 1, false))
  }

  function Next(w: World, e: Event, maxRetries: nat): World
    requires Enabled(w, e)
  {
    match e
    case Schedule(id) =>
      var last := w.job.tasks[Find(w.job.tasks, id)].tried >= maxRetries;
      w.(job := Started(w.job, id, w.next), runners := w.runners[w.next := Runner(id, last, Starting, false)],
         next := w.next + 1)
    case RunnerStarts(r) =>
      var m := Sends(w, e).value;
      SetPhase(Post(w, m), r, if Accepts(w, m) then Running(false) else Returned(Answer(true, false, false)))
    case RunnerUpdates(r, _) => SetPhase(Post(w, Sends(w, e).value), r, Running(true))
    case RunnerFinishes(r, o) => SetPhase(w, r, AfterRun(w.runners[r], o))
    case RunnerEnds(r, _) =>
      var m := Sends(w, e).value;
      var o := w.runners[r].phase.outcome;
      SetPhase(Post(w, m), r, Returned(Answer(!Accepts(w, m) || IsError(o), o.state == ABORTED, Accepts(w, m))))
    case Callback(r, preempted) => AfterCallback(w, r, preempted)
    case CheckCompleted => w.(ending := Sending)
    case SendEndSaga =>
      var m := Sends(w, e).value;
      Post(w, m).(closed := true, ending := Answered(Accepts(w, m)))
    case EndSagaCallback => w.(ending := Idle, deleted := w.ending.ok)
    case KillJob => w.(killed := true, killing := KillingAt(0, false))
    case KillStep(data) => AfterKillStep(w, data)
  }

  // -------------------------------------------------------------------------------------------
  // The invariant.

  /** What the saga knows about a task whose runner is in this phase. */
  ghost predicate RunnerAgrees(run: Runner, f: S.Flags) {
    match run.phase
    case Starting => !f.completed
    case Running(_) => f.started && !f.completed
    case Ending(o) =>
      f.started && !f.completed && (IsError(o) ==> o.end || run.last) && (o.end ==> o.state == ABORTED)
    case Returned(a) =>
      && f.started && f.completed == a.logged
      && (a.logged ==> !a.failed || a.aborted || run.last)
      && (!a.logged ==> a.failed && !run.last)
  }

  ghost predicate TaskAgrees(w: World, t: Task) {
    var f := w.saga.FlagsOf(t.id);
    && t.id != ""
    && (t.id in w.unlogged ==> t.status == Completed)
    && match t.status
       case NotStarted => !f.completed && t.runner == None
       case InProgress =>
         && t.runner.Some? && t.runner.value in w.runners && w.runners[t.runner.value].task == t.id
         && RunnerAgrees(w.runners[t.runner.value], f)
       case Completed => t.runner == None && (if t.id in w.unlogged then f.started && !f.completed else f.completed)
  }

  ghost predicate TasksAgree(w: World) {
    forall i :: 0 <= i < |w.job.tasks| ==> TaskAgrees(w, w.job.tasks[i])
  }

  ghost predicate RunnersOwned(w: World) {
    forall r <- w.runners :: r < w.next && RunnerOwned(w, r)
  }

  ghost predicate SagaAgrees(w: World) {
    && S.FlagOrder(w.saga) && !w.saga.aborted
    && (forall t <- w.saga.taskState :: Has(w.job.tasks, t))
    && (forall t <- w.unlogged :: Has(w.job.tasks, t))
  }

  /** How far the end of the saga has come: its one EndSaga is sent once every task is done, and a second
      would be needed only if some task was given up without an EndTask. */
  ghost predicate EndAgrees(w: World) {
    && (w.closed || !w.ending.Idle? || w.deleted ==> AllDone(w))
    && (w.ending.Answered? || w.deleted || w.saga.completed ==> w.closed)
    && (w.closed && w.ending != Answered(true) && !w.deleted ==> w.unlogged != {} && !w.saga.completed)
    && (w.ending == Answered(true) || w.deleted ==> w.saga.completed)
    && (w.deleted ==> w.ending.Idle?) && (w.panicked ==> w.unlogged != {})
  }

  ghost predicate KillAgrees(w: World) {
    w.killing.KillingAt? ==>
      && w.killing.at <= |w.job.tasks| && w.killed && !w.deleted
      && (w.killing.startLogged ==>
            && w.killing.at < |w.job.tasks| && w.job.tasks[w.killing.at].status == NotStarted
            && w.saga.FlagsOf(w.job.tasks[w.killing.at].id).started)
  }

  ghost predicate Inv(w: World) {
    && UniqueIds(w.job.tasks) && CountersAgree(w.job) && TasksAgree(w) && RunnersOwned(w)
    && SagaAgrees(w) && EndAgrees(w) && KillAgrees(w)
  }

  /** The runner's task is in progress, and this is the runner it is in progress with. */
  ghost predicate RunnerOwned(w: World, r: nat)
    requires r in w.runners
  {
    var i := Find(w.job.tasks, w.runners[r].task);
    i < |w.job.tasks| && w.job.tasks[i].status == InProgress && w.job.tasks[i].runner == Some(r)
  }

  ghost predicate IsNew(saga: S.State, t: Task) {
    t == Task(t.id, if saga.FlagsOf(t.id).completed then Completed else NotStarted, 0, None) && t.id != ""
  }

  /** A job newly added, fresh or recovered: no runners yet, and done exactly the tasks its saga ended. */
  ghost predicate Init(w: World) {
    && UniqueIds(w.job.tasks) && CountersAgree(w.job)
    && (forall i :: 0 <= i < |w.job.tasks| ==> IsNew(w.saga, w.job.tasks[i]))
    && S.FlagOrder(w.saga) && !w.saga.aborted && !w.saga.completed
    && (forall t <- w.saga.taskState :: Has(w.job.tasks, t))
    && w == World(w.job, w.saga, false, map[], w.next, false, NotKilling, Idle, false, false, {})
  }

  lemma InitEstablishesInv(w: World)
    requires Init(w)
    ensures Inv(w)
  {
  }

  lemma RunnerTask(w: World, r: nat)
    requires Inv(w) && r in w.runners
    ensures var i := Find(w.job.tasks, w.runners[r].task);
      && i < |w.job.tasks| && RunnerAgrees(w.runners[r], w.saga.FlagsOf(w.runners[r].task))
      && w.runners[r].task != "" && !AllDone(w) && w.job.tasks[i].runner == Some(r)
      && w.job.tasks[i].status == InProgress && w.job.tasks[i].id == w.runners[r].task
  {
    var i := Find(w.job.tasks, w.runners[r].task);
    assert RunnerOwned(w, r);
    assert TaskAgrees(w, w.job.tasks[i]);
    CountBounds(w.job.tasks);
  }

  /** A job counts as done exactly when each of its tasks is, and no task runner is left then. */
  lemma AllDoneMeansQuiet(w: World)
    requires Inv(w)
    ensures AllDone(w) <==> forall i :: 0 <= i < |w.job.tasks| ==> w.job.tasks[i].status == Completed
    ensures forall r <- w.runners :: !AllDone(w)
  {
    CountBounds(w.job.tasks);
    forall r | r in w.runners ensures !AllDone(w) { RunnerTask(w, r); }
  }

  /** A task message is accepted once it names a task of the job that is not done for the saga. */
  lemma TaskMessageAccepted(w: World, m: S.Msg)
    requires SagaAgrees(w) && EndAgrees(w) && !AllDone(w)
    requires m.sagaId == w.saga.sagaId && m.taskId != "" && !w.saga.FlagsOf(m.taskId).completed
    requires m.kind == S.StartTask || (m.kind == S.EndTask && w.saga.FlagsOf(m.taskId).started)
    ensures Accepts(w, m)
  {
  }

  /** Every StartTask and EndTask the scheduler or a task runner sends is accepted: none comes after the
      task's EndTask, after EndSaga, or on a closed channel. */
  lemma TaskMessagesAccepted(w: World, e: Event)
    requires Inv(w) && Enabled(w, e) && e != SendEndSaga && Sends(w, e).Some?
    ensures Accepts(w, Sends(w, e).value)
  {
    if e.KillStep? {
      assert TaskAgrees(w, w.job.tasks[w.killing.at]);
      CountBounds(w.job.tasks);
    } else {
      RunnerTask(w, e.r);
    }
    TaskMessageAccepted(w, Sends(w, e).value);
  }

  /** The first EndSaga is accepted exactly when no task was completed without an EndTask. */
  lemma MayEndIffLogged(w: World)
    requires Inv(w) && Enabled(w, SendEndSaga) && !w.closed
    ensures Accepts(w, Sends(w, SendEndSaga).value) <==> w.unlogged == {}
  {
    AllDoneMeansQuiet(w);
    if w.unlogged == {} {
      forall t | t in w.saga.taskState ensures w.saga.taskState[t].completed {
        assert TaskAgrees(w, w.job.tasks[Find(w.job.tasks, t)]);
      }
    } else {
      var t :| t in w.unlogged;
      assert TaskAgrees(w, w.job.tasks[Find(w.job.tasks, t)]);
    }
  }

  // -------------------------------------------------------------------------------------------
  // Every event keeps the invariant.

  /** Lookups only depend on the ids. */
  lemma {:induction false} SameIds(a: seq<Task>, b: seq<Task>)
    requires |a| == |b| && forall i :: 0 <= i < |a| ==> a[i].id == b[i].id
    ensures forall id :: Find(a, id) == Find(b, id)
  {
    if a != [] { SameIds(a[1..], b[1..]); }
  }

  /** `w'` differs from `w` at task `i`, at the runner `r` it has or had, and at its saga flags only. */
  ghost predicate OnlyTask(w: World, w': World, i: nat, r: nat) {
    && i < |w.job.tasks| == |w'.job.tasks| && w'.job.tasks == w.job.tasks[i := w'.job.tasks[i]]
    && w'.job.tasks[i].id == w.job.tasks[i].id
    && w.next <= w'.next
    && (forall id :: id != w.job.tasks[i].id ==> w'.saga.FlagsOf(id) == w.saga.FlagsOf(id))
    && (w'.unlogged == w.unlogged || w'.unlogged == w.unlogged + {w.job.tasks[i].id})
    && (|| w'.runners == w.runners
        || w'.runners == w.runners - {r}
        || (r in w'.runners && w'.runners == w.runners[r := w'.runners[r]]))
    && w.job.tasks[i].runner == (if r in w.runners then Some(r) else None)
    && (r in w'.runners ==> w'.job.tasks[i].runner == Some(r) && w'.job.tasks[i].status == InProgress && r < w'.next)
  }

  lemma OtherTasksAgree(w: World, w': World, i: nat, r: nat)
    requires UniqueIds(w.job.tasks) && TasksAgree(w) && RunnersOwned(w) && OnlyTask(w, w', i, r)
    requires TaskAgrees(w', w'.job.tasks[i])
    ensures UniqueIds(w'.job.tasks) && TasksAgree(w')
  {
    forall k | 0 <= k < |w.job.tasks| && k != i ensures TaskAgrees(w', w'.job.tasks[k]) {
      assert TaskAgrees(w, w.job.tasks[k]);
      assert TaskAgrees(w, w.job.tasks[i]);
      if w.job.tasks[k].status == InProgress {
        assert RunnerOwned(w, w.job.tasks[k].runner.value);
      }
    }
  }

  lemma OtherRunnersOwned(w: World, w': World, i: nat, r: nat)
    requires UniqueIds(w.job.tasks) && TasksAgree(w) && RunnersOwned(w) && OnlyTask(w, w', i, r)
    requires TaskAgrees(w', w'.job.tasks[i])
    ensures RunnersOwned(w')
  {
    SameIds(w.job.tasks, w'.job.tasks);
    FindUnique(w.job.tasks, i);
    assert TaskAgrees(w, w.job.tasks[i]);
    forall q | q in w'.runners ensures q < w'.next && RunnerOwned(w', q) {
      if q != r {
        assert RunnerOwned(w, q);
      }
    }
  }

  lemma LocalStep(w: World, w': World, i: nat, r: nat)
    requires Inv(w) && OnlyTask(w, w', i, r) && TaskAgrees(w', w'.job.tasks[i])
    ensures UniqueIds(w'.job.tasks) && TasksAgree(w') && RunnersOwned(w')
    ensures forall id :: Has(w'.job.tasks, id) == Has(w.job.tasks, id)
  {
    OtherTasksAgree(w, w', i, r);
    OtherRunnersOwned(w, w', i, r);
    SameIds(w.job.tasks, w'.job.tasks);
  }

  /** The saga after an accepted task message: only that task's flags moved. */
  lemma PostTaskMessage(w: World, m: S.Msg)
    requires SagaAgrees(w) && Accepts(w, m) && m.kind in {S.StartTask, S.EndTask}
    ensures var s := Post(w, m).saga;
      && Post(w, m) == w.(saga := s) && S.FlagOrder(s) && !s.aborted && s.completed == w.saga.completed == false
      && s.FlagsOf(m.taskId).started && s.FlagsOf(m.taskId).completed == (m.kind == S.EndTask)
      && (forall id :: id != m.taskId ==> s.FlagsOf(id) == w.saga.FlagsOf(id))
      && s.taskState.Keys == w.saga.taskState.Keys + {m.taskId}
  {
    S.ApplyKeepsFlagOrder(w.saga, m);
  }

  lemma ScheduleKeepsInv(w: World, id: string, maxRetries: nat)
    requires Inv(w) && Enabled(w, Schedule(id))
    ensures Inv(Next(w, Schedule(id), maxRetries))
  {
    var w' := Next(w, Schedule(id), maxRetries);
    var i := Find(w.job.tasks, id);
    UpdatesKeepCounters(w.job, id, w.next, false);
    CountBounds(w.job.tasks);
    assert TaskAgrees(w, w.job.tasks[i]);
    LocalStep(w, w', i, w.next);
  }

  /** A runner moves to phase `p`, having had a message accepted or having sent none. */
  lemma RunnerMoves(w: World, s: S.State, r: nat, p: Phase)
    requires Inv(w) && r in w.runners && !w.saga.completed
    requires S.FlagOrder(s) && !s.aborted && !s.completed
    requires s.taskState.Keys <= w.saga.taskState.Keys + {w.runners[r].task}
    requires forall id :: id != w.runners[r].task ==> s.FlagsOf(id) == w.saga.FlagsOf(id)
    requires RunnerAgrees(w.runners[r].(phase := p), s.FlagsOf(w.runners[r].task))
    ensures Inv(SetPhase(w.(saga := s), r, p))
  {
    var w' := SetPhase(w.(saga := s), r, p);
    RunnerTask(w, r);
    var i := Find(w.job.tasks, w.runners[r].task);
    assert TaskAgrees(w, w.job.tasks[i]);
    LocalStep(w, w', i, r);
    RunnerMovesRest(w, s, r, p);
  }

  lemma RunnerMovesRest(w: World, s: S.State, r: nat, p: Phase)
    requires Inv(w) && r in w.runners && !w.saga.completed
    requires S.FlagOrder(s) && !s.aborted && !s.completed
    requires s.taskState.Keys <= w.saga.taskState.Keys + {w.runners[r].task}
    requires forall id :: id != w.runners[r].task ==> s.FlagsOf(id) == w.saga.FlagsOf(id)
    requires Has(w.job.tasks, w.runners[r].task) && !AllDone(w)
    requires w.job.tasks[Find(w.job.tasks, w.runners[r].task)].status == InProgress
    ensures var w' := SetPhase(w.(saga := s), r, p); SagaAgrees(w') && EndAgrees(w') && KillAgrees(w')
  {
    var w' := SetPhase(w.(saga := s), r, p);
    assert SagaAgrees(w');
    if w.killing.KillingAt? && w.killing.startLogged { FindUnique(w.job.tasks, w.killing.at); }
  }

  lemma RunnerKeepsInv(w: World, e: Event, maxRetries: nat)
    requires Inv(w) && Enabled(w, e) && (e.RunnerStarts? || e.RunnerUpdates? || e.RunnerFinishes? || e.RunnerEnds?)
    ensures Inv(Next(w, e, maxRetries))
  {
    RunnerTask(w, e.r);
    if e.RunnerFinishes? {
      RunnerMoves(w, w.saga, e.r, AfterRun(w.runners[e.r], e.outcome));
    } else {
      var m := Sends(w, e).value;
      TaskMessagesAccepted(w, e);
      PostTaskMessage(w, m);
      RunnerMoves(w, Post(w, m).saga, e.r, Next(w, e, maxRetries).runners[e.r].phase);
    }
  }

  /** What is left to show for a step of the loop that does not touch the saga or its end. */
  lemma CallbackKeepsRest(w: World, r: nat, preempted: bool)
    requires Inv(w) && Enabled(w, Callback(r, preempted))
    requires var w' := AfterCallback(w, r, preempted);
      && CountersAgree(w'.job) && UniqueIds(w'.job.tasks) && TasksAgree(w') && RunnersOwned(w')
      && forall id :: Has(w'.job.tasks, id) == Has(w.job.tasks, id)
    ensures Inv(AfterCallback(w, r, preempted))
  {
    RunnerTask(w, r);
  }

  lemma CallbackKeepsInv(w: World, r: nat, preempted: bool, maxRetries: nat)
    requires Inv(w) && Enabled(w, Callback(r, preempted))
    ensures Inv(Next(w, Callback(r, preempted), maxRetries))
  {
    var w' := AfterCallback(w, r, preempted);
    RunnerTask(w, r);
    var i := Find(w.job.tasks, w.runners[r].task);
    assert TaskAgrees(w, w.job.tasks[i]);
    UpdatesKeepCounters(w.job, w.runners[r].task, 0, preempted);
    LocalStep(w, w', i, r);
    CallbackKeepsRest(w, r, preempted);
  }

  predicate IsEndEvent(e: Event) { e.CheckCompleted? || e.SendEndSaga? || e.EndSagaCallback? || e.KillJob? }

  ghost predicate SameTasks(w: World, w': World) {
    && w'.job == w.job && w'.runners == w.runners && w'.next == w.next && w'.unlogged == w.unlogged
    && w'.saga.taskState == w.saga.taskState && w'.saga.aborted == w.saga.aborted
  }

  lemma EndEventKeepsTasks(w: World, e: Event, maxRetries: nat)
    requires Enabled(w, e) && IsEndEvent(e)
    ensures SameTasks(w, Next(w, e, maxRetries))
  {
  }

  lemma SameTasksAgree(w: World, w': World)
    requires TasksAgree(w) && RunnersOwned(w) && SameTasks(w, w')
    ensures TasksAgree(w') && RunnersOwned(w')
  {
    forall i | 0 <= i < |w.job.tasks| ensures TaskAgrees(w', w'.job.tasks[i]) {
      assert TaskAgrees(w, w.job.tasks[i]);
    }
    forall r | r in w'.runners ensures r < w'.next && RunnerOwned(w', r) {
      assert RunnerOwned(w, r);
    }
  }

  lemma EndSagaKeepsInv(w: World, e: Event, maxRetries: nat)
    requires Inv(w) && Enabled(w, e) && IsEndEvent(e)
    ensures Inv(Next(w, e, maxRetries))
  {
    if e.SendEndSaga? && !w.closed { MayEndIffLogged(w); }
    EndEventKeepsTasks(w, e, maxRetries);
    SameTasksAgree(w, Next(w, e, maxRetries));
  }

  lemma KillRunningKeepsInv(w: World, data: S.Bytes)
    requires Inv(w) && Enabled(w, KillStep(data)) && w.killing.at < |w.job.tasks|
    requires w.job.tasks[w.killing.at].status != NotStarted
    ensures Inv(AfterKillStep(w, data))
  {
    var w' := AfterKillStep(w, data);
    var i := w.killing.at;
    assert TaskAgrees(w, w.job.tasks[i]);
    LocalStep(w, w', i, (if w.job.tasks[i].runner.Some? then w.job.tasks[i].runner.value else w.next));
  }

  lemma KillWaitingKeepsInv(w: World, data: S.Bytes)
    requires Inv(w) && Enabled(w, KillStep(data)) && w.killing.at < |w.job.tasks|
    requires w.job.tasks[w.killing.at].status == NotStarted
    ensures Inv(AfterKillStep(w, data))
  {
    var w' := AfterKillStep(w, data);
    var i := w.killing.at;
    FindUnique(w.job.tasks, i);
    assert TaskAgrees(w, w.job.tasks[i]);
    CountBounds(w.job.tasks);
    TaskMessagesAccepted(w, KillStep(data));
    PostTaskMessage(w, Sends(w, KillStep(data)).value);
    UpdatesKeepCounters(w.job, w.job.tasks[i].id, 0, false);
    LocalStep(w, w', i, w.next);
  }

  lemma KillStepKeepsInv(w: World, data: S.Bytes, maxRetries: nat)
    requires Inv(w) && Enabled(w, KillStep(data))
    ensures Inv(Next(w, KillStep(data), maxRetries))
  {
    if w.killing.at == |w.job.tasks| {
      assert forall i :: 0 <= i < |w.job.tasks| ==> TaskAgrees(w, w.job.tasks[i]);
      assert forall r <- w.runners :: RunnerOwned(w, r);
    } else if w.job.tasks[w.killing.at].status == NotStarted {
      KillWaitingKeepsInv(w, data);
    } else {
      KillRunningKeepsInv(w, data);
    }
  }

  lemma StepKeepsInv(w: World, e: Event, maxRetries: nat)
    requires Inv(w) && Enabled(w, e)
    ensures Inv(Next(w, e, maxRetries))
  {
    match e
    case Schedule(id) => ScheduleKeepsInv(w, id, maxRetries);
    case Callback(r, preempted) => CallbackKeepsInv(w, r, preempted, maxRetries);
    case KillStep(data) => KillStepKeepsInv(w, data, maxRetries);
    case RunnerStarts(_) => RunnerKeepsInv(w, e, maxRetries);
    case RunnerUpdates(_, _) => RunnerKeepsInv(w, e, maxRetries);
    case RunnerFinishes(_, _) => RunnerKeepsInv(w, e, maxRetries);
    case RunnerEnds(_, _) => RunnerKeepsInv(w, e, maxRetries);
    case _ => EndSagaKeepsInv(w, e, maxRetries);
  }

  // -------------------------------------------------------------------------------------------
  // Whole runs.

  ghost predicate IsRun(ws: seq<World>, es: seq<Event>, maxRetries: nat) {
    && |ws| == |es| + 1 && Init(ws[0])
    && forall k :: 0 <= k < |es| ==> Enabled(ws[k], es[k]) && ws[k + 1] == Next(ws[k], es[k], maxRetries)
  }

  lemma RunStep(ws: seq<World>, es: seq<Event>, maxRetries: nat, k: nat)
    requires IsRun(ws, es, maxRetries) && k < |es|
    ensures Enabled(ws[k], es[k]) && ws[k + 1] == Next(ws[k], es[k], maxRetries)
  {
  }

  lemma {:induction false} RunKeepsInv(ws: seq<World>, es: seq<Event>, maxRetries: nat, k: nat)
    requires IsRun(ws, es, maxRetries) && k <= |es|
    ensures Inv(ws[k])
  {
    if k == 0 {
      InitEstablishesInv(ws[0]);
    } else {
      RunKeepsInv(ws, es, maxRetries, k - 1);
      StepKeepsInv(ws[k - 1], es[k - 1], maxRetries);
    }
  }

  /** Some run of the job leads here. */
  ghost predicate Reachable(w: World, maxRetries: nat) {
    exists ws, es :: IsRun(ws, es, maxRetries) && ws[|es|] == w
  }

  lemma ReachableInv(w: World, maxRetries: nat)
    requires Reachable(w, maxRetries)
    ensures Inv(w)
  {
    var ws, es :| IsRun(ws, es, maxRetries) && ws[|es|] == w;
    RunKeepsInv(ws, es, maxRetries, |es|);
  }

  lemma InitIsReachable(w: World, maxRetries: nat)
    requires Init(w)
    ensures Reachable(w, maxRetries)
  {
    var es: seq<Event> := [];
    assert IsRun([w], es, maxRetries) && [w][|es|] == w;
  }

  lemma RunGrows(ws: seq<World>, es: seq<Event>, e: Event, maxRetries: nat)
    requires IsRun(ws, es, maxRetries) && Enabled(ws[|es|], e)
    ensures IsRun(ws + [Next(ws[|es|], e, maxRetries)], es + [e], maxRetries)
  {
    var ws', es' := ws + [Next(ws[|es|], e, maxRetries)], es + [e];
    forall k | 0 <= k < |es'| ensures Enabled(ws'[k], es'[k]) && ws'[k + 1] == Next(ws'[k], es'[k], maxRetries) {
      if k < |es| { assert ws'[k] == ws[k] && ws'[k + 1] == ws[k + 1] && es'[k] == es[k]; }
    }
  }

  lemma StepIsReachable(w: World, e: Event, maxRetries: nat)
    requires Reachable(w, maxRetries) && Enabled(w, e)
    ensures Reachable(Next(w, e, maxRetries), maxRetries)
  {
    var ws, es :| IsRun(ws, es, maxRetries) && ws[|es|] == w;
    RunGrows(ws, es, e, maxRetries);
    var ws', es' := ws + [Next(w, e, maxRetries)], es + [e];
    assert ws'[|es'|] == Next(w, e, maxRetries);
  }

  /** In every run, no task message is refused, and no StartTask is issued once the task's EndTask is logged. */
  lemma NoStartAfterEnd(ws: seq<World>, es: seq<Event>, maxRetries: nat, k: nat)
    requires IsRun(ws, es, maxRetries) && k < |es| && Sends(ws[k], es[k]).Some? && es[k] != SendEndSaga
    ensures Accepts(ws[k], Sends(ws[k], es[k]).value)
    ensures var m := Sends(ws[k], es[k]).value;
            m.kind == S.StartTask ==> !ws[k].saga.FlagsOf(m.taskId).completed
  {
    RunKeepsInv(ws, es, maxRetries, k);
    TaskMessagesAccepted(ws[k], es[k]);
  }

  lemma OnlyCallbackGivesUp(w: World, e: Event, maxRetries: nat)
    requires Enabled(w, e) && !e.Callback?
    ensures Next(w, e, maxRetries).unlogged == w.unlogged
  {
  }

  /** Once EndSaga is accepted no event sends anything to the saga again. */
  lemma NothingAfterEndSaga(w: World, e: Event)
    requires Inv(w) && Enabled(w, e) && w.closed && w.unlogged == {}
    ensures Sends(w, e) == None
  {
    AllDoneMeansQuiet(w);
  }

  /** The same runners for the same tasks; only those `moved` may be in another phase. */
  ghost predicate RunnersKept(a: map<nat, Runner>, b: map<nat, Runner>, moved: set<nat>) {
    && b.Keys == a.Keys
    && forall r <- a :: b[r].task == a[r].task && b[r].last == a[r].last && (r in moved || b[r].phase == a[r].phase)
  }

  function Moved(e: Event): set<nat> {
    if e.RunnerStarts? || e.RunnerUpdates? || e.RunnerFinishes? || e.RunnerEnds? then {e.r} else {}
  }

  lemma PostFrame(w: World, m: S.Msg)
    ensures Post(w, m).runners == w.runners && Post(w, m).job == w.job
  {
  }

  lemma PhaseFrame(w: World, r: nat, p: Phase)
    requires r in w.runners
    ensures RunnersKept(w.runners, SetPhase(w, r, p).runners, {r})
  {
  }

  /** Outside of the three loop events that finish or start tasks, jobs do not change and runners keep their
      identity. */
  lemma RunnerFrame(w: World, e: Event, maxRetries: nat)
    requires Enabled(w, e) && !e.Schedule? && !e.Callback? && !e.KillStep?
    ensures var w' := Next(w, e, maxRetries);
      w'.job == w.job && RunnersKept(w.runners, w'.runners, Moved(e))
  {
    var w1 := if Sends(w, e).Some? then Post(w, Sends(w, e).value) else w;
    if Sends(w, e).Some? { PostFrame(w, Sends(w, e).value); }
    if Moved(e) != {} { PhaseFrame(w1, e.r, Next(w, e, maxRetries).runners[e.r].phase); }
  }

  lemma KillFrame(w: World, data: S.Bytes)
    requires Enabled(w, KillStep(data))
    ensures RunnersKept(w.runners, AfterKillStep(w, data).runners, {})
  {
    if Sends(w, KillStep(data)).Some? { PostFrame(w, Sends(w, KillStep(data)).value); }
  }

  /** Only starting and completing a task changes how many tasks run and which runners there are. */
  lemma OtherEventsKeepRunners(w: World, e: Event, maxRetries: nat)
    requires Enabled(w, e) && !e.Schedule? && !e.Callback?
    ensures var w' := Next(w, e, maxRetries); w'.runners.Keys == w.runners.Keys && w'.job.running == w.job.running
  {
    if e.KillStep? {
      KillFrame(w, e.data);
    } else {
      RunnerFrame(w, e, maxRetries);
    }
  }

  /** Starting one task leaves the other waiting tasks ready to start. */
  lemma OthersStillWait(w: World, id: string, other: string, maxRetries: nat)
    requires Enabled(w, Schedule(id)) && Enabled(w, Schedule(other)) && other != id
    ensures Enabled(Next(w, Schedule(id), maxRetries), Schedule(other))
  {
    SameIds(w.job.tasks, Next(w, Schedule(id), maxRetries).job.tasks);
  }

  lemma NextRunnerIsNew(w: World, maxRetries: nat)
    requires Reachable(w, maxRetries)
    ensures w.next !in w.runners
  {
    ReachableInv(w, maxRetries);
  }

  /** A job that is deleted has no task running and no callback waiting. */
  lemma DeletedIsQuiet(w: World, maxRetries: nat)
    requires Reachable(w, maxRetries) && w.deleted
    ensures w.job.running == 0 && w.runners.Keys == {}
  {
    ReachableInv(w, maxRetries);
    AllDoneMeansQuiet(w);
    CountBounds(w.job.tasks);
    assert w.runners.Keys == {} by { assert forall r <- w.runners :: false; }
  }

  // -------------------------------------------------------------------------------------------
  // Retries.

  ghost predicate TryBounded(w: World, t: Task, maxRetries: nat) {
    && 0 <= t.tried <= maxRetries + 1 && (t.status == NotStarted ==> t.tried <= maxRetries)
    && (t.status == InProgress && t.runner.Some? && t.runner.value in w.runners ==>
          t.tried > 0 && w.runners[t.runner.value].last == (t.tried > maxRetries))
  }

  ghost predicate TriesBounded(w: World, maxRetries: nat) {
    forall i :: 0 <= i < |w.job.tasks| ==> TryBounded(w, w.job.tasks[i], maxRetries)
  }

  lemma ScheduleKeepsTriesBounded(w: World, id: string, maxRetries: nat)
    requires TasksAgree(w) && RunnersOwned(w) && Enabled(w, Schedule(id)) && TriesBounded(w, maxRetries)
    ensures TriesBounded(Next(w, Schedule(id), maxRetries), maxRetries)
  {
    var w' := Next(w, Schedule(id), maxRetries);
    forall i | 0 <= i < |w.job.tasks| ensures TryBounded(w', w'.job.tasks[i], maxRetries) {
      assert TryBounded(w, w.job.tasks[i], maxRetries) && TaskAgrees(w, w.job.tasks[i]);
    }
  }

  lemma CallbackKeepsTriesBounded(w: World, r: nat, preempted: bool, maxRetries: nat)
    requires Inv(w) && Enabled(w, Callback(r, preempted)) && TriesBounded(w, maxRetries)
    ensures TriesBounded(AfterCallback(w, r, preempted), maxRetries)
  {
    var w' := AfterCallback(w, r, preempted);
    RunnerTask(w, r);
    forall i | 0 <= i < |w.job.tasks| ensures TryBounded(w', w'.job.tasks[i], maxRetries) {
      assert TryBounded(w, w.job.tasks[i], maxRetries);
    }
  }

  lemma KillStepKeepsTriesBounded(w: World, data: S.Bytes, maxRetries: nat)
    requires Enabled(w, KillStep(data)) && TriesBounded(w, maxRetries)
    ensures TriesBounded(AfterKillStep(w, data), maxRetries)
  {
    var w' := AfterKillStep(w, data);
    KillFrame(w, data);
    forall i | 0 <= i < |w.job.tasks| ensures TryBounded(w', w'.job.tasks[i], maxRetries) {
      assert TryBounded(w, w.job.tasks[i], maxRetries);
      KilledTask(w, data, i);
    }
  }

  /** A step of the kill loop leaves a task as it is, or completes it. */
  lemma KilledTask(w: World, data: S.Bytes, i: nat)
    requires Enabled(w, KillStep(data)) && i < |w.job.tasks|
    ensures var w' := AfterKillStep(w, data);
      && |w'.job.tasks| == |w.job.tasks|
      && (w'.job.tasks[i] == w.job.tasks[i] ||
          (w'.job.tasks[i].status == Completed && w'.job.tasks[i].tried == w.job.tasks[i].tried))
  {
    if Sends(w, KillStep(data)).Some? { PostFrame(w, Sends(w, KillStep(data)).value); }
  }

  lemma StepKeepsTriesBounded(w: World, e: Event, maxRetries: nat)
    requires Inv(w) && Enabled(w, e) && TriesBounded(w, maxRetries)
    ensures TriesBounded(Next(w, e, maxRetries), maxRetries)
  {
    match e
    case Schedule(id) => ScheduleKeepsTriesBounded(w, id, maxRetries);
    case Callback(r, preempted) => CallbackKeepsTriesBounded(w, r, preempted, maxRetries);
    case KillStep(data) => KillStepKeepsTriesBounded(w, data, maxRetries);
    case _ =>
      RunnerFrame(w, e, maxRetries);
      SameJobKeepsTriesBounded(w, Next(w, e, maxRetries), Moved(e), maxRetries);
  }

  lemma SameJobKeepsTriesBounded(w: World, w': World, moved: set<nat>, maxRetries: nat)
    requires TriesBounded(w, maxRetries) && w'.job == w.job && RunnersKept(w.runners, w'.runners, moved)
    ensures TriesBounded(w', maxRetries)
  {
    forall i | 0 <= i < |w.job.tasks| ensures TryBounded(w', w'.job.tasks[i], maxRetries) {
      assert TryBounded(w, w.job.tasks[i], maxRetries);
    }
  }

  /** Starts of a task in a run so far, and those a retry took back because the node was replaced meanwhile. */
  ghost function Starts(es: seq<Event>, id: string): nat {
    if es == [] then 0 else
    Starts(es[..|es| - 1], id) + if es[|es| - 1] == Schedule(id) then 1 else 0
  }

  ghost predicate IsPreemption(w: World, e: Event, id: string) {
    && e.Callback? && e.preempted && e.r in w.runners && w.runners[e.r].task == id && w.runners[e.r].phase.Returned?
    && var a := w.runners[e.r].phase.answer; a.failed && !a.aborted && !w.runners[e.r].last
  }

  ghost function Preemptions(ws: seq<World>, es: seq<Event>, id: string): nat
    requires |ws| >= |es|
  {
    if es == [] then 0 else
    Preemptions(ws, es[..|es| - 1], id) + if IsPreemption(ws[|es| - 1], es[|es| - 1], id) then 1 else 0
  }

  ghost predicate Tried(w: World, e: Event, w': World, i: nat)
    requires i < |w.job.tasks|
  {
    && |w'.job.tasks| == |w.job.tasks| && w'.job.tasks[i].id == w.job.tasks[i].id
    && w'.job.tasks[i].tried == w.job.tasks[i].tried + (if e == Schedule(w.job.tasks[i].id) then 1 else 0)
                                - (if IsPreemption(w, e, w.job.tasks[i].id) then 1 else 0)
  }

  lemma TriedAfterCallback(w: World, r: nat, preempted: bool, i: nat)
    requires UniqueIds(w.job.tasks) && Enabled(w, Callback(r, preempted)) && i < |w.job.tasks|
    ensures Tried(w, Callback(r, preempted), AfterCallback(w, r, preempted), i)
  {
    FindUnique(w.job.tasks, i);
  }

  lemma TriedAfterKillStep(w: World, data: S.Bytes, i: nat)
    requires UniqueIds(w.job.tasks) && Enabled(w, KillStep(data)) && i < |w.job.tasks|
    ensures Tried(w, KillStep(data), AfterKillStep(w, data), i)
  {
  }

  lemma TriedAfterStep(w: World, e: Event, maxRetries: nat, i: nat)
    requires UniqueIds(w.job.tasks) && Enabled(w, e) && i < |w.job.tasks|
    ensures Tried(w, e, Next(w, e, maxRetries), i)
  {
    match e
    case Schedule(_) => FindUnique(w.job.tasks, i);
    case Callback(r, preempted) => TriedAfterCallback(w, r, preempted, i);
    case KillStep(data) => TriedAfterKillStep(w, data, i);
    case _ => RunnerFrame(w, e, maxRetries);
  }

  lemma {:induction false} RunKeepsTriesBounded(ws: seq<World>, es: seq<Event>, maxRetries: nat, k: nat)
    requires IsRun(ws, es, maxRetries) && k <= |es|
    ensures TriesBounded(ws[k], maxRetries)
  {
    if k > 0 {
      RunKeepsTriesBounded(ws, es, maxRetries, k - 1);
      RunKeepsInv(ws, es, maxRetries, k - 1);
      RunStep(ws, es, maxRetries, k - 1);
      StepKeepsTriesBounded(ws[k - 1], es[k - 1], maxRetries);
    }
  }

  lemma {:induction false} TriedCounts(ws: seq<World>, es: seq<Event>, maxRetries: nat, k: nat, i: nat)
    requires IsRun(ws, es, maxRetries) && k <= |es| && i < |ws[0].job.tasks|
    ensures |ws[k].job.tasks| == |ws[0].job.tasks| && ws[k].job.tasks[i].id == ws[0].job.tasks[i].id
    ensures var id := ws[0].job.tasks[i].id;
      ws[k].job.tasks[i].tried == Starts(es[..k], id) - Preemptions(ws, es[..k], id)
  {
    if k > 0 {
      assert es[..k][..k - 1] == es[..k - 1];
      TriedCounts(ws, es, maxRetries, k - 1, i);
      TasksStayUnique(ws, es, maxRetries, k - 1);
      TriedAfterStep(ws[k - 1], es[k - 1], maxRetries, i);
    }
  }

  lemma TasksStayUnique(ws: seq<World>, es: seq<Event>, maxRetries: nat, k: nat)
    requires IsRun(ws, es, maxRetries) && k <= |es|
    ensures UniqueIds(ws[k].job.tasks)
  {
    RunKeepsInv(ws, es, maxRetries, k);
  }

  /** In every run a task is started at most maxRetries + 1 times, not counting starts taken back by preemption. */
  lemma RetriesBounded(ws: seq<World>, es: seq<Event>, maxRetries: nat, k: nat, i: nat)
    requires IsRun(ws, es, maxRetries) && k <= |es| && i < |ws[0].job.tasks|
    ensures var id := ws[0].job.tasks[i].id; Starts(es[..k], id) - Preemptions(ws, es[..k], id) <= maxRetries + 1
  {
    RunKeepsTriesBounded(ws, es, maxRetries, k);
    TriedCounts(ws, es, maxRetries, k, i);
    assert TryBounded(ws[k], ws[k].job.tasks[i], maxRetries);
  }
}
