/** What the steps of a job come to, told from the run alone: what the outcome of an attempt does to its task, whom a
    kill request reaches, and when a job is deleted. */
module JobHistory {
  import opened Wrappers
  import opened JobSpec
  import opened RunStatuses
  import opened JobProtocol
  import S = SagaSpec

  // -------------------------------------------------------------------------------------------
  // What the outcome of an attempt does.

  /** The runner came back with this outcome, and is about to log it or to call back. */
  ghost predicate Carries(run: Runner, o: Outcome) {
    match run.phase
    case Ending(p) => p == o && (IsError(o) ==> o.end || run.last)
    case Returned(a) => a == Answer(IsError(o), o.state == ABORTED, !(IsError(o) && !o.end && !run.last))
    case _ => false
  }

  ghost predicate CarriesIfThere(w: World, r: nat, o: Outcome) {
    r < w.next && (r in w.runners ==> Carries(w.runners[r], o))
  }

  lemma FinishCarries(w: World, r: nat, o: Outcome, maxRetries: nat)
    requires Inv(w) && Enabled(w, RunnerFinishes(r, o))
    ensures CarriesIfThere(Next(w, RunnerFinishes(r, o), maxRetries), r, o)
  {
  }

  lemma EndCarries(w: World, r: nat, data: S.Bytes, o: Outcome, maxRetries: nat)
    requires Inv(w) && Enabled(w, RunnerEnds(r, data)) && CarriesIfThere(w, r, o)
    ensures CarriesIfThere(Next(w, RunnerEnds(r, data), maxRetries), r, o)
  {
    TaskMessagesAccepted(w, RunnerEnds(r, data));
  }

  /** Whatever happens to other runners, this one stays as it is until it calls back, and no other gets its number. */
  lemma RunnerStays(w: World, e: Event, maxRetries: nat, r: nat)
    requires Enabled(w, e) && r < w.next && r !in Moved(e)
    ensures var w' := Next(w, e, maxRetries);
      && w.next <= w'.next
      && (r in w'.runners ==>
            r in w.runners && w'.runners[r].phase == w.runners[r].phase && w'.runners[r].last == w.runners[r].last)
  {
    match e
    case Schedule(_) =>
    case Callback(_, _) =>
    case KillStep(data) =>
      KillFrame(w, data);
      SameNext(w, e, maxRetries);
    case _ =>
      RunnerFrame(w, e, maxRetries);
      SameNext(w, e, maxRetries);
  }

  lemma SameNext(w: World, e: Event, maxRetries: nat)
    requires Enabled(w, e) && !e.Schedule?
    ensures Next(w, e, maxRetries).next == w.next
  {
  }

  lemma StepCarries(w: World, e: Event, maxRetries: nat, r: nat, o: Outcome)
    requires Inv(w) && Enabled(w, e) && CarriesIfThere(w, r, o)
    ensures CarriesIfThere(Next(w, e, maxRetries), r, o)
  {
    if r !in Moved(e) {
      RunnerStays(w, e, maxRetries, r);
    } else {
      assert e.RunnerEnds?;
      EndCarries(w, r, e.data, o, maxRetries);
    }
  }

  lemma {:induction false} RunCarries(ws: seq<World>, es: seq<Event>, maxRetries: nat, j: nat, k: nat)
    requires IsRun(ws, es, maxRetries) && j < k <= |es| && es[j].RunnerFinishes?
    ensures CarriesIfThere(ws[k], es[j].r, es[j].outcome)
    decreases k
  {
    if j == k - 1 {
      CarriesFrom(ws, es, maxRetries, j);
    } else {
      RunCarries(ws, es, maxRetries, j, k - 1);
      CarriesOn(ws, es, maxRetries, k - 1, es[j].r, es[j].outcome);
    }
  }

  lemma CarriesFrom(ws: seq<World>, es: seq<Event>, maxRetries: nat, j: nat)
    requires IsRun(ws, es, maxRetries) && j < |es| && es[j].RunnerFinishes?
    ensures CarriesIfThere(ws[j + 1], es[j].r, es[j].outcome)
  {
    RunKeepsInv(ws, es, maxRetries, j);
    RunStep(ws, es, maxRetries, j);
    FinishCarries(ws[j], es[j].r, es[j].outcome, maxRetries);
  }

  lemma CarriesOn(ws: seq<World>, es: seq<Event>, maxRetries: nat, k: nat, r: nat, o: Outcome)
    requires IsRun(ws, es, maxRetries) && k < |es| && CarriesIfThere(ws[k], r, o)
    ensures CarriesIfThere(ws[k + 1], r, o)
  {
    RunKeepsInv(ws, es, maxRetries, k);
    RunStep(ws, es, maxRetries, k);
    StepCarries(ws[k], es[k], maxRetries, r, o);
  }

  /** How often the task counts as tried by step `k`: its starts, less those taken back by preemption. */
  ghost function Tries(ws: seq<World>, es: seq<Event>, k: nat, id: string): int
    requires k <= |es| < |ws|
  {
    Starts(es[..k], id) - Preemptions(ws, es[..k], id)
  }

  /** Later steps do not change how often a task was tried by then. */
  lemma TriesOfPrefix(ws: seq<World>, es: seq<Event>, w: World, e: Event, id: string)
    requires |es| < |ws|
    ensures Tries(ws + [w], es + [e], |es|, id) == Tries(ws, es, |es|, id)
  {
    assert (es + [e])[..|es|] == es == es[..|es|];
    PreemptionsOfPrefix(ws, w, es, id);
  }

  lemma {:induction false} PreemptionsOfPrefix(ws: seq<World>, w: World, es: seq<Event>, id: string)
    requires |es| <= |ws|
    ensures Preemptions(ws + [w], es, id) == Preemptions(ws, es, id)
  {
    if es != [] { PreemptionsOfPrefix(ws, w, es[..|es| - 1], id); }
  }

  /** An attempt with this outcome is over: its task waits again if it failed, was not aborted and may be tried again,
      and is completed otherwise. No other task changes, and the runner is gone. */
  ghost predicate Decided(w: World, w': World, r: nat, o: Outcome, tries: int, maxRetries: nat) {
    && r in w.runners && r !in w'.runners
    && var id := w.runners[r].task;
       var i := Find(w.job.tasks, id);
       var retry := (o.callErr || o.state != COMPLETE) && o.state != ABORTED && tries <= maxRetries;
       && i < |w.job.tasks| == |w'.job.tasks| && w'.job.tasks == w.job.tasks[i := w'.job.tasks[i]]
       && w'.job.tasks[i].id == id && w'.job.tasks[i].status == (if retry then NotStarted else Completed)
       && w'.saga == w.saga
       && (w.saga.FlagsOf(id).completed <==> !retry && !(o.state == ABORTED && !o.end && tries <= maxRetries))
  }

  lemma CallbackDecides(w: World, r: nat, preempted: bool, o: Outcome, maxRetries: nat)
    requires Inv(w) && TriesBounded(w, maxRetries) && Enabled(w, Callback(r, preempted)) && CarriesIfThere(w, r, o)
    requires o.end ==> o.state == ABORTED && !o.callErr
    ensures var tries := w.job.tasks[Find(w.job.tasks, w.runners[r].task)].tried;
      Decided(w, AfterCallback(w, r, preempted), r, o, tries, maxRetries)
  {
    RunnerTask(w, r);
    var i := Find(w.job.tasks, w.runners[r].task);
    assert TryBounded(w, w.job.tasks[i], maxRetries);
  }

  /** In every run, what an attempt's outcome was decides what its callback does with the task. */
  lemma OutcomeDecides(ws: seq<World>, es: seq<Event>, maxRetries: nat, j: nat, k: nat)
    requires IsRun(ws, es, maxRetries) && j < k < |es| && es[j].RunnerFinishes? && es[k].Callback? && es[k].r == es[j].r
    ensures es[k].r in ws[k].runners
    ensures Decided(ws[k], ws[k + 1], es[k].r, es[j].outcome, Tries(ws, es, k, ws[k].runners[es[k].r].task), maxRetries)
  {
    RunCarries(ws, es, maxRetries, j, k);
    RunKeepsInv(ws, es, maxRetries, k);
    RunKeepsTriesBounded(ws, es, maxRetries, k);
    RunStep(ws, es, maxRetries, j);
    RunStep(ws, es, maxRetries, k);
    CallbackDecides(ws[k], es[k].r, es[k].preempted, es[j].outcome, maxRetries);
    TriesCount(ws, es, maxRetries, k, es[k].r);
  }

  lemma TriesCount(ws: seq<World>, es: seq<Event>, maxRetries: nat, k: nat, r: nat)
    requires IsRun(ws, es, maxRetries) && k <= |es| && r in ws[k].runners
    ensures var id := ws[k].runners[r].task;
      Has(ws[k].job.tasks, id) && ws[k].job.tasks[Find(ws[k].job.tasks, id)].tried == Tries(ws, es, k, id)
  {
    RunKeepsInv(ws, es, maxRetries, k);
    RunnerTask(ws[k], r);
    var i := Find(ws[k].job.tasks, ws[k].runners[r].task);
    SameTaskList(ws, es, maxRetries, k);
    TriedCounts(ws, es, maxRetries, k, i);
  }

  lemma {:induction false} SameTaskList(ws: seq<World>, es: seq<Event>, maxRetries: nat, k: nat)
    requires IsRun(ws, es, maxRetries) && k <= |es|
    ensures |ws[k].job.tasks| == |ws[0].job.tasks|
  {
    if k > 0 {
      SameTaskList(ws, es, maxRetries, k - 1);
      RunStep(ws, es, maxRetries, k - 1);
      SameTaskCount(ws[k - 1], es[k - 1], maxRetries);
    }
  }

  lemma SameTaskCount(w: World, e: Event, maxRetries: nat)
    requires Enabled(w, e)
    ensures |Next(w, e, maxRetries).job.tasks| == |w.job.tasks|
  {
    if e.KillStep? {
      KillSameCount(w, e.data);
    } else if !e.Schedule? && !e.Callback? {
      RunnerFrame(w, e, maxRetries);
    }
  }

  lemma KillSameCount(w: World, data: S.Bytes)
    requires Enabled(w, KillStep(data))
    ensures |AfterKillStep(w, data).job.tasks| == |w.job.tasks|
  {
    if Sends(w, KillStep(data)).Some? { PostFrame(w, Sends(w, KillStep(data)).value); }
  }

  ghost predicate CameBack(run: Runner) { run.phase.Ending? || run.phase.Returned? }

  ghost predicate Finishes(e: Event, r: nat) { e.RunnerFinishes? && e.r == r }

  lemma OnlyFinishBringsBack(w: World, e: Event, maxRetries: nat, r: nat)
    requires Inv(w) && Enabled(w, e) && !Finishes(e, r) && r < w.next
    requires r in Next(w, e, maxRetries).runners && CameBack(Next(w, e, maxRetries).runners[r])
    ensures r in w.runners && CameBack(w.runners[r])
  {
    if r !in Moved(e) {
      RunnerStays(w, e, maxRetries, r);
    } else if e.RunnerStarts? {
      TaskMessagesAccepted(w, e);
    }
  }

  lemma NewRunnerStarts(w: World, e: Event, maxRetries: nat, r: nat)
    requires RunnersOwned(w) && Enabled(w, e) && r >= w.next && r in Next(w, e, maxRetries).runners
    ensures !CameBack(Next(w, e, maxRetries).runners[r])
  {
    if !e.Schedule? && !e.Callback? { OtherEventsKeepRunners(w, e, maxRetries); }
  }

  lemma CameBackBefore(ws: seq<World>, es: seq<Event>, maxRetries: nat, k: nat, r: nat)
    requires IsRun(ws, es, maxRetries) && k < |es| && !Finishes(es[k], r)
    requires r in ws[k + 1].runners && CameBack(ws[k + 1].runners[r])
    ensures r in ws[k].runners && CameBack(ws[k].runners[r])
  {
    RunKeepsInv(ws, es, maxRetries, k);
    RunStep(ws, es, maxRetries, k);
    if r >= ws[k].next { NewRunnerStarts(ws[k], es[k], maxRetries, r); }
    OnlyFinishBringsBack(ws[k], es[k], maxRetries, r);
  }

  lemma NoRunnersYet(ws: seq<World>, es: seq<Event>, maxRetries: nat)
    requires IsRun(ws, es, maxRetries)
    ensures ws[0].runners == map[]
  {
  }

  /** In every run, each attempt that is over had an outcome. */
  lemma {:induction false} HadOutcome(ws: seq<World>, es: seq<Event>, maxRetries: nat, k: nat, r: nat) returns (j: nat)
    requires IsRun(ws, es, maxRetries) && k <= |es| && r in ws[k].runners && CameBack(ws[k].runners[r])
    ensures j < k && Finishes(es[j], r)
  {
    NoRunnersYet(ws, es, maxRetries);
    if Finishes(es[k - 1], r) {
      j := k - 1;
    } else {
      CameBackBefore(ws, es, maxRetries, k - 1, r);
      j := HadOutcome(ws, es, maxRetries, k - 1, r);
    }
  }

  // -------------------------------------------------------------------------------------------
  // Whom a kill request reaches.

  /** The task is completed, or its runner was told to abort. */
  ghost predicate Reached(w: World, i: nat)
    requires i < |w.job.tasks|
  {
    var t := w.job.tasks[i];
    || t.status == Completed
    || (t.status == InProgress && t.runner.Some? && t.runner.value in w.runners && w.runners[t.runner.value].abort)
  }

  ghost predicate ReachedUpTo(w: World, n: nat) {
    n <= |w.job.tasks| && forall i: nat :: i < n ==> Reached(w, i)
  }

  /** The kill loop has dealt with each task that it has passed. */
  ghost predicate ReachedSoFar(w: World) { w.killing.KillingAt? ==> ReachedUpTo(w, w.killing.at) }

  lemma AbortsStay(w: World, e: Event, maxRetries: nat, i: nat)
    requires Enabled(w, e) && !e.Schedule? && !e.Callback? && !e.KillStep? && i < |w.job.tasks| && Reached(w, i)
    ensures var w' := Next(w, e, maxRetries); i < |w'.job.tasks| && Reached(w', i)
  {
    RunnerFrame(w, e, maxRetries);
  }

  /** A step of the kill loop takes no request back, */
  lemma KillKeepsAborts(w: World, data: S.Bytes)
    requires Enabled(w, KillStep(data))
    ensures var w' := AfterKillStep(w, data);
      forall r <- w.runners :: r in w'.runners && (w.runners[r].abort ==> w'.runners[r].abort)
  {
    if Sends(w, KillStep(data)).Some? { PostFrame(w, Sends(w, KillStep(data)).value); }
  }

  lemma KillKeepsReached(w: World, data: S.Bytes, i: nat)
    requires Enabled(w, KillStep(data)) && i < |w.job.tasks| && Reached(w, i)
    ensures var w' := AfterKillStep(w, data); i < |w'.job.tasks| && Reached(w', i)
  {
    KilledTask(w, data, i);
    KillKeepsAborts(w, data);
  }

  /** and reaches the task it is at before it goes on to the next. */
  lemma KillReaches(w: World, data: S.Bytes)
    requires Inv(w) && Enabled(w, KillStep(data)) && w.killing.at < |w.job.tasks|
    ensures var w', i := AfterKillStep(w, data), w.killing.at;
      |w'.job.tasks| == |w.job.tasks| && w'.killing.KillingAt? &&
      (w'.killing.at == i || (w'.killing.at == i + 1 && Reached(w', i)))
  {
    var i := w.killing.at;
    FindUnique(w.job.tasks, i);
    assert TaskAgrees(w, w.job.tasks[i]);
  }

  lemma KillStepReachesOn(w: World, data: S.Bytes)
    requires Inv(w) && Enabled(w, KillStep(data)) && ReachedSoFar(w)
    ensures var w' := AfterKillStep(w, data);
      if w'.killing.NotKilling? then ReachedUpTo(w', |w'.job.tasks|) else ReachedUpTo(w', w'.killing.at)
  {
    var w' := AfterKillStep(w, data);
    forall i: nat | i < w.killing.at ensures i < |w'.job.tasks| && Reached(w', i) { KillKeepsReached(w, data, i); }
    if w.killing.at < |w.job.tasks| { KillReaches(w, data); }
  }

  lemma StepReachesOn(w: World, e: Event, maxRetries: nat)
    requires Inv(w) && Enabled(w, e) && ReachedSoFar(w)
    ensures ReachedSoFar(Next(w, e, maxRetries))
  {
    var w' := Next(w, e, maxRetries);
    if e.KillStep? {
      KillStepReachesOn(w, e.data);
    } else if w.killing.KillingAt? {
      RunnerFrame(w, e, maxRetries);
      SameKilling(w, e, maxRetries);
      forall i: nat | i < w.killing.at ensures Reached(w', i) { AbortsStay(w, e, maxRetries, i); }
    } else {
      KillBegins(w, e, maxRetries);
    }
  }

  lemma SameKilling(w: World, e: Event, maxRetries: nat)
    requires Enabled(w, e) && !e.KillStep? && w.killing.KillingAt?
    ensures Next(w, e, maxRetries).killing == w.killing
  {
  }

  lemma KillBegins(w: World, e: Event, maxRetries: nat)
    requires Enabled(w, e) && w.killing.NotKilling?
    ensures Next(w, e, maxRetries).killing == if e.KillJob? then KillingAt(0, false) else NotKilling
  {
  }

  lemma {:induction false} RunReaches(ws: seq<World>, es: seq<Event>, maxRetries: nat, k: nat)
    requires IsRun(ws, es, maxRetries) && k <= |es|
    ensures ReachedSoFar(ws[k])
  {
    if k > 0 {
      RunReaches(ws, es, maxRetries, k - 1);
      RunKeepsInv(ws, es, maxRetries, k - 1);
      RunStep(ws, es, maxRetries, k - 1);
      StepReachesOn(ws[k - 1], es[k - 1], maxRetries);
    }
  }

  /** No task waits, and every runner was told to abort. */
  ghost predicate AllTold(w: World) {
    && (forall i :: 0 <= i < |w.job.tasks| ==>
          w.job.tasks[i].status == InProgress || w.job.tasks[i].status == Completed)
    && (forall r <- w.runners :: w.runners[r].abort)
  }

  lemma ReachedAreTold(w: World)
    requires Inv(w) && ReachedUpTo(w, |w.job.tasks|)
    ensures AllTold(w)
  {
    forall i | 0 <= i < |w.job.tasks| ensures w.job.tasks[i].status != NotStarted { assert Reached(w, i); }
    forall r | r in w.runners ensures w.runners[r].abort {
      RunnerTask(w, r);
      assert Reached(w, Find(w.job.tasks, w.runners[r].task));
    }
  }

  /** In every run, when a kill request has been dealt with, every runner was told to abort and no task waits. */
  lemma KillTellsAll(ws: seq<World>, es: seq<Event>, maxRetries: nat, k: nat)
    requires IsRun(ws, es, maxRetries) && k < |es| && es[k].KillStep? && ws[k + 1].killing.NotKilling?
    ensures AllTold(ws[k + 1])
  {
    RunKeepsInv(ws, es, maxRetries, k);
    RunReaches(ws, es, maxRetries, k);
    RunStep(ws, es, maxRetries, k);
    KillStepReachesOn(ws[k], es[k].data);
    RunKeepsInv(ws, es, maxRetries, k + 1);
    ReachedAreTold(ws[k + 1]);
  }

  /** Nobody else is told to abort. */
  ghost predicate ToldIfKilled(w: World) { forall r <- w.runners :: w.runners[r].abort ==> w.killed }

  lemma StepTellsIfKilled(w: World, e: Event, maxRetries: nat)
    requires KillAgrees(w) && Enabled(w, e) && ToldIfKilled(w)
    ensures ToldIfKilled(Next(w, e, maxRetries))
    ensures Next(w, e, maxRetries).killed == (w.killed || e == KillJob)
  {
    match e
    case Schedule(_) =>
    case Callback(_, _) =>
    case KillStep(data) =>
      KillFrame(w, data);
      KillStaysKilled(w, data);
    case _ => AbortsSame(w, e, maxRetries);
  }

  lemma KillStaysKilled(w: World, data: S.Bytes)
    requires Enabled(w, KillStep(data))
    ensures AfterKillStep(w, data).killed == w.killed
  {
  }

  lemma AbortsSame(w: World, e: Event, maxRetries: nat)
    requires Enabled(w, e) && !e.Schedule? && !e.Callback? && !e.KillStep?
    ensures var w' := Next(w, e, maxRetries);
      && w'.runners.Keys == w.runners.Keys && w'.killed == (w.killed || e == KillJob)
      && forall r <- w.runners :: w'.runners[r].abort == w.runners[r].abort
  {
    if IsEndEvent(e) {
      EndEventKeepsTasks(w, e, maxRetries);
      EndEventKills(w, e, maxRetries);
    } else {
      OnlyPhaseMoves(w, e, maxRetries);
    }
  }

  lemma EndEventKills(w: World, e: Event, maxRetries: nat)
    requires Enabled(w, e) && IsEndEvent(e)
    ensures Next(w, e, maxRetries).killed == (w.killed || e == KillJob)
  {
  }

  lemma OnlyPhaseMoves(w: World, e: Event, maxRetries: nat)
    requires Enabled(w, e) && Moved(e) != {}
    ensures e.r in w.runners && e.r in Next(w, e, maxRetries).runners
    ensures var w' := Next(w, e, maxRetries);
      w'.killed == w.killed && w'.runners == w.runners[e.r := w.runners[e.r].(phase := w'.runners[e.r].phase)]
  {
  }

  ghost predicate WasKilled(es: seq<Event>, k: nat)
    requires k <= |es|
  {
    exists j :: 0 <= j < k && es[j] == KillJob
  }

  lemma {:induction false} TellsIfKilled(ws: seq<World>, es: seq<Event>, maxRetries: nat, k: nat)
    requires IsRun(ws, es, maxRetries) && k <= |es|
    ensures ToldIfKilled(ws[k]) && (ws[k].killed <==> WasKilled(es, k))
  {
    if k > 0 {
      TellsIfKilled(ws, es, maxRetries, k - 1);
      RunKeepsInv(ws, es, maxRetries, k - 1);
      RunStep(ws, es, maxRetries, k - 1);
      StepTellsIfKilled(ws[k - 1], es[k - 1], maxRetries);
    }
  }

  /** In every run, a runner is told to abort, and an outcome ends its task, only if the job was killed. */
  lemma OnlyKillTells(ws: seq<World>, es: seq<Event>, maxRetries: nat, k: nat)
    requires IsRun(ws, es, maxRetries) && k < |es| && es[k].RunnerFinishes?
    ensures es[k].r in ws[k].runners && (es[k].outcome.end ==> ws[k].runners[es[k].r].abort)
    ensures ws[k].runners[es[k].r].abort ==> WasKilled(es, k)
  {
    TellsIfKilled(ws, es, maxRetries, k);
    RunStep(ws, es, maxRetries, k);
  }

  // -------------------------------------------------------------------------------------------
  // When a job is deleted.

  lemma AnswerDeletes(w: World, e: Event, maxRetries: nat)
    requires EndAgrees(w) && Enabled(w, e) && !w.deleted
    ensures Next(w, e, maxRetries).deleted <==> e == EndSagaCallback && w.saga.completed
  {
  }

  /** In every run, the answer to EndSaga deletes the job exactly when its saga has ended, and nothing else does. */
  lemma DeletedIffEnded(ws: seq<World>, es: seq<Event>, maxRetries: nat, k: nat)
    requires IsRun(ws, es, maxRetries) && k < |es| && !ws[k].deleted
    ensures ws[k + 1].deleted <==> es[k] == EndSagaCallback && ws[k].saga.completed
  {
    RunKeepsInv(ws, es, maxRetries, k);
    RunStep(ws, es, maxRetries, k);
    AnswerDeletes(ws[k], es[k], maxRetries);
  }
}
