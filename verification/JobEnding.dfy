/** How a job's saga ends: exactly which runs end it with one accepted EndSaga, and what the others come to. */
module JobEnding {
  import opened Wrappers
  import opened JobSpec
  import opened RunStatuses
  import opened JobProtocol
  import S = SagaSpec

  // -------------------------------------------------------------------------------------------
  // Tasks given up without an EndTask.

  /** A run that may still be retried comes back ABORTED, and not because of a kill request. */
  ghost predicate GivesUp(w: World, e: Event) {
    && e.RunnerFinishes? && e.outcome.state == ABORTED && !e.outcome.end
    && e.r in w.runners && !w.runners[e.r].last
  }

  /** The runner's callback will complete the task although no EndTask was logged. */
  ghost predicate RunnerOwes(run: Runner) {
    run.phase.Returned? && run.phase.answer.aborted && !run.phase.answer.logged
  }

  /** The task was, or is about to be, completed without an EndTask. */
  ghost predicate Owes(w: World, id: string) {
    id in w.unlogged || exists r :: r in w.runners && w.runners[r].task == id && RunnerOwes(w.runners[r])
  }

  /** What an event adds to the tasks given up. */
  ghost predicate GivesUpTask(w: World, e: Event, id: string) { GivesUp(w, e) && w.runners[e.r].task == id }

  /** Only a give-up makes a runner owe an EndTask. */
  lemma RunnerEventOwes(w: World, e: Event, maxRetries: nat, r: nat)
    requires Enabled(w, e) && !e.Schedule? && !e.Callback? && !e.KillStep? && r in w.runners
    requires e.RunnerEnds? ==> Accepts(w, Sends(w, e).value)
    ensures r in Next(w, e, maxRetries).runners
    ensures RunnerOwes(Next(w, e, maxRetries).runners[r]) <==> RunnerOwes(w.runners[r]) || (GivesUp(w, e) && e.r == r)
  {
    RunnerFrame(w, e, maxRetries);
  }

  lemma OtherEventOwes(w: World, e: Event, maxRetries: nat, id: string)
    requires Inv(w) && Enabled(w, e) && !e.Schedule? && !e.Callback? && !e.KillStep?
    ensures Owes(Next(w, e, maxRetries), id) <==> Owes(w, id) || GivesUpTask(w, e, id)
  {
    if e.RunnerEnds? { TaskMessagesAccepted(w, e); }
    OnlyCallbackGivesUp(w, e, maxRetries);
    RunnerFrame(w, e, maxRetries);
    forall r | r in w.runners
      ensures RunnerOwes(Next(w, e, maxRetries).runners[r]) <==> RunnerOwes(w.runners[r]) || (GivesUp(w, e) && e.r == r)
    {
      RunnerEventOwes(w, e, maxRetries, r);
    }
  }

  /** A callback gives its task up exactly when its runner owes the EndTask. */
  lemma CallbackGivesUp(w: World, r: nat, preempted: bool)
    requires Inv(w) && Enabled(w, Callback(r, preempted))
    ensures AfterCallback(w, r, preempted).unlogged ==
            if RunnerOwes(w.runners[r]) then w.unlogged + {w.runners[r].task} else w.unlogged
  {
    RunnerTask(w, r);
  }

  lemma CallbackOwes(w: World, w': World, r: nat, id: string)
    requires r in w.runners && w'.runners == w.runners - {r}
    requires w'.unlogged == if RunnerOwes(w.runners[r]) then w.unlogged + {w.runners[r].task} else w.unlogged
    ensures Owes(w', id) <==> Owes(w, id)
  {
    assert forall q <- w'.runners :: w'.runners[q] == w.runners[q];
    assert forall q <- w.runners :: q != r ==> q in w'.runners;
  }

  lemma ScheduleOwes(w: World, task: string, maxRetries: nat, id: string)
    requires RunnersOwned(w) && Enabled(w, Schedule(task))
    ensures Owes(Next(w, Schedule(task), maxRetries), id) <==> Owes(w, id)
  {
    var w' := Next(w, Schedule(task), maxRetries);
    assert w'.unlogged == w.unlogged && !RunnerOwes(w'.runners[w.next]);
    assert forall r <- w.runners :: r != w.next && w'.runners[r] == w.runners[r];
  }

  lemma SameRunnersOwe(w: World, w': World, id: string)
    requires RunnersKept(w.runners, w'.runners, {}) && w'.unlogged == w.unlogged
    ensures Owes(w', id) <==> Owes(w, id)
  {
  }

  lemma StepOwes(w: World, e: Event, maxRetries: nat, id: string)
    requires Inv(w) && Enabled(w, e)
    ensures Owes(Next(w, e, maxRetries), id) <==> Owes(w, id) || GivesUpTask(w, e, id)
  {
    match e
    case Callback(r, preempted) =>
      CallbackGivesUp(w, r, preempted);
      CallbackOwes(w, AfterCallback(w, r, preempted), r, id);
    case Schedule(task) => ScheduleOwes(w, task, maxRetries, id);
    case KillStep(data) =>
      OnlyCallbackGivesUp(w, e, maxRetries);
      KillFrame(w, data);
      SameRunnersOwe(w, AfterKillStep(w, data), id);
    case _ => OtherEventOwes(w, e, maxRetries, id);
  }

  ghost predicate GaveUp(ws: seq<World>, es: seq<Event>, k: nat, id: string)
    requires k <= |es| < |ws|
  {
    exists j :: 0 <= j < k && GivesUpTask(ws[j], es[j], id)
  }

  /** In every run the tasks completed without an EndTask, or about to be, are those an unasked ABORTED gave up. */
  lemma {:induction false} OwesIffGaveUp(ws: seq<World>, es: seq<Event>, maxRetries: nat, k: nat, id: string)
    requires IsRun(ws, es, maxRetries) && k <= |es|
    ensures Owes(ws[k], id) <==> GaveUp(ws, es, k, id)
  {
    if k == 0 {
      NewOwesNothing(ws[0], id);
    } else {
      OwesIffGaveUp(ws, es, maxRetries, k - 1, id);
      RunKeepsInv(ws, es, maxRetries, k - 1);
      RunStep(ws, es, maxRetries, k - 1);
      StepOwes(ws[k - 1], es[k - 1], maxRetries, id);
      GaveUpStep(ws, es, k, id);
    }
  }

  lemma NewOwesNothing(w: World, id: string)
    requires Init(w)
    ensures !Owes(w, id)
  {
  }

  lemma GaveUpStep(ws: seq<World>, es: seq<Event>, k: nat, id: string)
    requires 0 < k <= |es| < |ws|
    ensures GaveUp(ws, es, k, id) <==> GaveUp(ws, es, k - 1, id) || GivesUpTask(ws[k - 1], es[k - 1], id)
  {
  }

  // -------------------------------------------------------------------------------------------
  // Whole runs.

  /** Nothing before step `k` gave a task up. */
  ghost predicate Clean(ws: seq<World>, es: seq<Event>, k: nat)
    requires k <= |es| < |ws|
  {
    forall j :: 0 <= j < k ==> !GivesUp(ws[j], es[j])
  }

  lemma CleanOwesNothing(ws: seq<World>, es: seq<Event>, maxRetries: nat, k: nat)
    requires IsRun(ws, es, maxRetries) && k <= |es|
    ensures Clean(ws, es, k) ==> ws[k].unlogged == {}
    ensures ws[k].runners == map[] && ws[k].unlogged == {} ==> Clean(ws, es, k)
  {
    forall id ensures Owes(ws[k], id) <==> GaveUp(ws, es, k, id) { OwesIffGaveUp(ws, es, maxRetries, k, id); }
    forall j | 0 <= j < k && GivesUp(ws[j], es[j]) ensures Owes(ws[k], ws[j].runners[es[j].r].task) {
      assert GivesUpTask(ws[j], es[j], ws[j].runners[es[j].r].task);
    }
    forall id | id in ws[k].unlogged ensures !Clean(ws, es, k) {
      assert Owes(ws[k], id);
      var j :| 0 <= j < k && GivesUpTask(ws[j], es[j], id);
    }
  }

  /** The first EndSaga is accepted exactly when no run that could have been retried came back ABORTED unasked. */
  lemma EndSagaAcceptedIff(ws: seq<World>, es: seq<Event>, maxRetries: nat, k: nat)
    requires IsRun(ws, es, maxRetries) && k < |es| && es[k] == SendEndSaga && !ws[k].closed
    ensures Accepts(ws[k], Sends(ws[k], es[k]).value) <==>
            !exists j :: 0 <= j < k && es[j].RunnerFinishes? && es[j].outcome.state == ABORTED && !es[j].outcome.end
                         && !ws[j].runners[es[j].r].last
  {
    RunKeepsInv(ws, es, maxRetries, k);
    AllDoneMeansQuiet(ws[k]);
    assert ws[k].runners == map[];
    MayEndIffLogged(ws[k]);
    CleanOwesNothing(ws, es, maxRetries, k);
    assert forall j :: 0 <= j < k && es[j].RunnerFinishes? ==> es[j].r in ws[j].runners;
  }

  lemma ClosedStaysClosed(w: World, e: Event, maxRetries: nat)
    requires Enabled(w, e) && w.closed
    ensures Next(w, e, maxRetries).closed
  {
  }

  lemma {:induction false} StaysClosed(ws: seq<World>, es: seq<Event>, maxRetries: nat, j: nat, k: nat)
    requires IsRun(ws, es, maxRetries) && j <= k <= |es| && ws[j].closed
    ensures ws[k].closed
    decreases k
  {
    if j < k {
      StaysClosed(ws, es, maxRetries, j, k - 1);
      StepStaysClosed(ws, es, maxRetries, k - 1);
    }
  }

  lemma StepStaysClosed(ws: seq<World>, es: seq<Event>, maxRetries: nat, k: nat)
    requires IsRun(ws, es, maxRetries) && k < |es| && ws[k].closed
    ensures ws[k + 1].closed
  {
    ClosedStaysClosed(ws[k], es[k], maxRetries);
  }

  lemma PanicNeedsClosed(w: World, e: Event, maxRetries: nat)
    requires Enabled(w, e) && (w.closed ==> Sends(w, e) == None)
    ensures !Next(w, e, maxRetries).panicked
  {
  }

  /** In a run up to such a point EndSaga is accepted the one time it is sent, nothing is sent to the saga after it,
      and nothing is sent on the closed channel. */
  lemma SagaEndsCleanly(ws: seq<World>, es: seq<Event>, maxRetries: nat, k: nat)
    requires IsRun(ws, es, maxRetries) && k < |es| && Clean(ws, es, k)
    ensures es[k] == SendEndSaga ==> Accepts(ws[k], Sends(ws[k], es[k]).value)
    ensures forall j :: 0 <= j < k && es[j] == SendEndSaga ==> Sends(ws[k], es[k]) == None
    ensures !ws[k].panicked && !ws[k + 1].panicked
  {
    CleanOwesNothing(ws, es, maxRetries, k);
    EndsCleanlyAt(ws, es, maxRetries, k);
    PanicNeedsClosed(ws[k], es[k], maxRetries);
    forall j | 0 <= j < k && es[j] == SendEndSaga ensures ws[k].closed {
      StaysClosed(ws, es, maxRetries, j + 1, k);
    }
  }

  lemma EndsCleanlyAt(ws: seq<World>, es: seq<Event>, maxRetries: nat, k: nat)
    requires IsRun(ws, es, maxRetries) && k < |es| && ws[k].unlogged == {}
    ensures ws[k].closed ==> Sends(ws[k], es[k]) == None
    ensures !ws[k].closed && es[k] == SendEndSaga ==> Accepts(ws[k], Sends(ws[k], es[k]).value)
  {
    RunKeepsInv(ws, es, maxRetries, k);
    if ws[k].closed {
      NothingAfterEndSaga(ws[k], es[k]);
    } else if es[k] == SendEndSaga {
      MayEndIffLogged(ws[k]);
    }
  }

  // -------------------------------------------------------------------------------------------
  // What the other runs can come to.

  /** Some run that starts as `w0` leads to `w`. */
  ghost predicate Leads(w0: World, w: World, maxRetries: nat) {
    exists ws, es :: IsRun(ws, es, maxRetries) && ws[0] == w0 && ws[|es|] == w
  }

  lemma LeadsInv(w0: World, w: World, maxRetries: nat)
    requires Leads(w0, w, maxRetries)
    ensures Inv(w)
  {
    var ws, es :| IsRun(ws, es, maxRetries) && ws[0] == w0 && ws[|es|] == w;
    RunKeepsInv(ws, es, maxRetries, |es|);
  }

  lemma LeadsNowhere(w: World, maxRetries: nat)
    requires Init(w)
    ensures Leads(w, w, maxRetries)
  {
    var es: seq<Event> := [];
    assert IsRun([w], es, maxRetries) && [w][0] == w && [w][|es|] == w;
  }

  lemma LeadsOn(w0: World, w: World, e: Event, maxRetries: nat)
    requires Leads(w0, w, maxRetries) && Enabled(w, e)
    ensures Leads(w0, Next(w, e, maxRetries), maxRetries)
  {
    var ws, es :| IsRun(ws, es, maxRetries) && ws[0] == w0 && ws[|es|] == w;
    RunGrows(ws, es, e, maxRetries);
    var ws', es' := ws + [Next(w, e, maxRetries)], es + [e];
    assert ws'[0] == w0 && ws'[|es'|] == Next(w, e, maxRetries);
  }

  /** No runner is left, a task was given up, and the end of the saga has not begun. */
  ghost predicate Stuck(w: World) {
    w.runners == map[] && w.unlogged != {} && !w.closed && w.ending.Idle? && !w.deleted && !w.panicked
  }

  lemma NothingInProgress(w: World, i: nat)
    requires Inv(w) && w.runners == map[] && i < |w.job.tasks|
    ensures w.job.tasks[i].status != InProgress
  {
    assert TaskAgrees(w, w.job.tasks[i]);
  }

  lemma KillOne(w: World, data: S.Bytes, maxRetries: nat)
    requires Inv(w) && Stuck(w) && Enabled(w, KillStep(data)) && w.killing.at < |w.job.tasks|
    ensures var w', i := Next(w, KillStep(data), maxRetries), w.killing.at;
      && Stuck(w') && |w'.job.tasks| == |w.job.tasks|
      && (forall k :: 0 <= k < i ==> w'.job.tasks[k] == w.job.tasks[k])
      && (if w'.killing == KillingAt(i, true) then !w.killing.startLogged
          else w'.killing == KillingAt(i + 1, false) && w'.job.tasks[i].status == Completed)
  {
    NothingInProgress(w, w.killing.at);
    FindUnique(w.job.tasks, w.killing.at);
  }

  /** The kill loop has come to some task, and all before it are completed. */
  ghost predicate MidKill(w: World) {
    && Stuck(w) && w.killing.KillingAt? && w.killing.at <= |w.job.tasks|
    && forall i :: 0 <= i < w.killing.at ==> w.job.tasks[i].status == Completed
  }

  ghost function StepsLeft(w: World): nat
    requires w.killing.KillingAt? && w.killing.at <= |w.job.tasks|
  {
    2 * (|w.job.tasks| - w.killing.at) + if w.killing.startLogged then 0 else 1
  }

  lemma KillMovesOn(w: World, maxRetries: nat)
    requires Inv(w) && MidKill(w) && w.killing.at < |w.job.tasks|
    ensures var w' := Next(w, KillStep([]), maxRetries); MidKill(w') && StepsLeft(w') < StepsLeft(w)
  {
    KillOne(w, [], maxRetries);
  }

  lemma KillIsOver(w: World, maxRetries: nat)
    requires Inv(w) && MidKill(w) && w.killing.at == |w.job.tasks|
    ensures var w' := Next(w, KillStep([]), maxRetries); Stuck(w') && w'.killing.NotKilling? && AllDone(w')
  {
    AllDoneMeansQuiet(w);
  }

  /** The kill loop completes every task that is left. */
  lemma {:induction false} KillsAll(w0: World, w: World, maxRetries: nat) returns (w': World)
    requires Leads(w0, w, maxRetries) && MidKill(w)
    ensures Leads(w0, w', maxRetries) && Stuck(w') && w'.killing.NotKilling? && AllDone(w')
    decreases StepsLeft(w)
  {
    LeadsInv(w0, w, maxRetries);
    LeadsOn(w0, w, KillStep([]), maxRetries);
    w' := Next(w, KillStep([]), maxRetries);
    if w.killing.at == |w.job.tasks| {
      KillIsOver(w, maxRetries);
    } else {
      KillMovesOn(w, maxRetries);
      w' := KillsAll(w0, w', maxRetries);
    }
  }

  /** Once every task is done and one was given up, EndSaga is refused and sent again on the closed channel. */
  lemma RefusedEndSagaPanics(w0: World, w: World, maxRetries: nat) returns (w': World)
    requires Leads(w0, w, maxRetries) && Stuck(w) && w.killing.NotKilling? && AllDone(w)
    ensures Leads(w0, w', maxRetries) && w'.panicked
  {
    LeadsOn(w0, w, CheckCompleted, maxRetries);
    var w1 := Next(w, CheckCompleted, maxRetries);
    LeadsInv(w0, w1, maxRetries);
    MayEndIffLogged(w1);
    LeadsOn(w0, w1, SendEndSaga, maxRetries);
    var w2 := Next(w1, SendEndSaga, maxRetries);
    assert w2 == w1.(closed := true, ending := Answered(false));
    LeadsOn(w0, w2, EndSagaCallback, maxRetries);
    var w3 := Next(w2, EndSagaCallback, maxRetries);
    LeadsOn(w0, w3, CheckCompleted, maxRetries);
    var w4 := Next(w3, CheckCompleted, maxRetries);
    LeadsOn(w0, w4, SendEndSaga, maxRetries);
    w' := Next(w4, SendEndSaga, maxRetries);
  }

  lemma FirstAttempt(w0: World, id: string, maxRetries: nat) returns (w: World)
    requires Init(w0) && Has(w0.job.tasks, id) && w0.job.tasks[Find(w0.job.tasks, id)].status == NotStarted
    requires maxRetries > 0
    ensures Leads(w0, w, maxRetries) && w.runners == map[w0.next := Runner(id, false, Running(false), false)]
    ensures LoopFree(w) && !w.closed && w.ending.Idle? && !w.killed
  {
    LeadsNowhere(w0, maxRetries);
    assert IsNew(w0.saga, w0.job.tasks[Find(w0.job.tasks, id)]);
    LeadsOn(w0, w0, Schedule(id), maxRetries);
    var w1 := Next(w0, Schedule(id), maxRetries);
    LeadsInv(w0, w1, maxRetries);
    TaskMessagesAccepted(w1, RunnerStarts(w0.next));
    LeadsOn(w0, w1, RunnerStarts(w0.next), maxRetries);
    w := Next(w1, RunnerStarts(w0.next), maxRetries);
  }

  /** A worker's unasked ABORTED gives a task up that might have been tried again. */
  lemma UnaskedAbortGivesUp(w0: World, id: string, maxRetries: nat) returns (w: World)
    requires Init(w0) && Has(w0.job.tasks, id) && w0.job.tasks[Find(w0.job.tasks, id)].status == NotStarted
    requires maxRetries > 0
    ensures Leads(w0, w, maxRetries) && Stuck(w) && w.killing.NotKilling? && !w.killed && id in w.unlogged
  {
    var r, e := w0.next, RunnerFinishes(w0.next, Outcome(ABORTED, false, false));
    var w2 := FirstAttempt(w0, id, maxRetries);
    LeadsOn(w0, w2, e, maxRetries);
    var w3 := Next(w2, e, maxRetries);
    LeadsInv(w0, w3, maxRetries);
    RunnerTask(w3, r);
    LeadsOn(w0, w3, Callback(r, false), maxRetries);
    w := Next(w3, Callback(r, false), maxRetries);
  }

  /** So every new or recovered job with a task to do, if a task may be tried twice, has a run in which the scheduler
      sends on a closed channel. */
  lemma EveryJobCanPanic(w0: World, id: string, maxRetries: nat) returns (w: World)
    requires Init(w0) && Has(w0.job.tasks, id) && w0.job.tasks[Find(w0.job.tasks, id)].status == NotStarted
    requires maxRetries > 0
    ensures Leads(w0, w, maxRetries) && w.panicked
  {
    w := UnaskedAbortGivesUp(w0, id, maxRetries);
    LeadsOn(w0, w, KillJob, maxRetries);
    w := KillsAll(w0, Next(w, KillJob, maxRetries), maxRetries);
    w := RefusedEndSagaPanics(w0, w, maxRetries);
  }
}
