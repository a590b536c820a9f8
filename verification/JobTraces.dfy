/** What a run of the whole scheduler is for each of its jobs: the steps that concern a job, picked out of the
    scheduler's, are a run of the job protocol. So all that holds of such runs holds of every job in the scheduler. */
module JobTraces {
  import opened RunStatuses
  import opened TaskGroups
  import opened JobSpec
  import C = ClusterSpec
  import E = JobEnding
  import H = JobHistory
  import J = JobProtocol
  import S = Scheduler
  import SagaSpec
  import Sequences

  /** The steps of one job, and the worlds between them. */
  datatype Trace = Trace(ws: seq<J.World>, es: seq<J.Event>)

  ghost function Grown(t: Trace, e: J.Event, maxRetries: nat): Trace {
    if t.ws != [] && J.Enabled(t.ws[|t.ws| - 1], e)
    then Trace(t.ws + [J.Next(t.ws[|t.ws| - 1], e, maxRetries)], t.es + [e])
    else t
  }

  ghost function GrownBy(t: Trace, es: seq<J.Event>, maxRetries: nat): Trace {
    if es == [] then t else Grown(GrownBy(t, es[..|es| - 1], maxRetries), es[|es| - 1], maxRetries)
  }

  /** The tasks of this job that a batch starts. */
  ghost function Schedules<N>(batch: seq<C.Assignment<N>>, id: string): seq<J.Event> {
    if batch == [] then [] else
    var t := batch[|batch| - 1].task.ref;
    Schedules(batch[..|batch| - 1], id) + if t.job == id then [J.Schedule(t.task)] else []
  }

  ghost predicate IsOf<N>(jobs: seq<S.Entry<N>>, i: nat, id: string) { i < |jobs| && jobs[i].ref.id == id }

  /** What an event of the scheduler is for the job with this id; a job that is added starts over. */
  ghost function After<N>(t: Trace, s: S.Sys<N>, e: S.Event<N>, id: string, maxRetries: nat): Trace {
    match e
    case AddJob(entry) => if entry.ref.id == id then Trace([entry.world], []) else t
    case JobStep(i, je) => if IsOf(s.jobs, i, id) then Grown(t, je, maxRetries) else t
    case StartBatch(_, _, batch) => GrownBy(t, Schedules(batch, id), maxRetries)
    case TaskDone(i, r, _, _) =>
      if IsOf(s.jobs, i, id) && r in s.jobs[i].on
      then Grown(t, J.Callback(r, S.NodeReplaced(s.cluster, s.jobs[i].on[r])), maxRetries)
      else t
    case NodeStep(_) => t
  }

  /** The steps of the job with this id in a run of the scheduler, since it was last added. */
  ghost function TraceOf<N>(p: S.Params, events: seq<S.Event<N>>, id: string): Trace {
    if events == [] then Trace([], []) else
    var init, e := events[..|events| - 1], events[|events| - 1];
    var t, s := TraceOf(p, init, id), S.Run(p, init);
    if S.Enabled(s, e) then After(t, s, e, id, p.maxRetries) else t
  }

  /** The trace is a run of the job protocol that leads to this world. */
  ghost predicate LeadsTo(t: Trace, w: J.World, maxRetries: nat) {
    J.IsRun(t.ws, t.es, maxRetries) && t.ws[|t.es|] == w
  }

  lemma GrownLeads(t: Trace, w: J.World, e: J.Event, maxRetries: nat)
    requires LeadsTo(t, w, maxRetries) && J.Enabled(w, e)
    ensures LeadsTo(Grown(t, e, maxRetries), J.Next(w, e, maxRetries), maxRetries)
  {
    J.RunGrows(t.ws, t.es, e, maxRetries);
  }

  lemma NewLeads(w: J.World, maxRetries: nat)
    requires J.Init(w)
    ensures LeadsTo(Trace([w], []), w, maxRetries)
  {
  }

  /** Every job has a trace in `traces` that leads to its world. */
  ghost predicate AllTraced<N>(jobs: seq<S.Entry<N>>, traces: string -> Trace, maxRetries: nat) {
    forall i :: 0 <= i < |jobs| ==> LeadsTo(traces(jobs[i].ref.id), jobs[i].world, maxRetries)
  }

  lemma GrownByOne(t: Trace, es: seq<J.Event>, e: J.Event, maxRetries: nat)
    ensures GrownBy(t, es + [e], maxRetries) == Grown(GrownBy(t, es, maxRetries), e, maxRetries)
  {
    assert (es + [e])[..|es|] == es;
  }

  lemma SameNumber<N>(jobs: seq<S.Entry<N>>, batch: seq<C.Assignment<N>>, maxRetries: nat)
    ensures var jobs' := S.AllStarted(jobs, batch, maxRetries);
      |jobs'| == |jobs| && forall k :: 0 <= k < |jobs| ==> jobs'[k].ref == jobs[k].ref
  {
    var jobs' := S.AllStarted(jobs, batch, maxRetries);
    S.AllStartedRefs(jobs, batch, maxRetries);
    assert |S.Refs(jobs')| == |S.Refs(jobs)|;
    assert forall k :: 0 <= k < |jobs| ==> jobs'[k].ref == S.Refs(jobs')[k] == S.Refs(jobs)[k] == jobs[k].ref;
  }

  /** The jobs after a batch started: each has gone through the starts of its own tasks. */
  lemma {:induction false} BatchTraced<N>(jobs: seq<S.Entry<N>>, batch: seq<C.Assignment<N>>, maxRetries: nat, i: nat,
                                          t: Trace)
    requires S.Startable(jobs, batch) && i < |jobs| && LeadsTo(t, jobs[i].world, maxRetries)
    requires forall k, l :: 0 <= k < l < |jobs| ==> jobs[k].ref.id != jobs[l].ref.id
    ensures |S.AllStarted(jobs, batch, maxRetries)| == |jobs|
    ensures LeadsTo(GrownBy(t, Schedules(batch, jobs[i].ref.id), maxRetries),
                    S.AllStarted(jobs, batch, maxRetries)[i].world, maxRetries)
  {
    SameNumber(jobs, batch, maxRetries);
    if batch != [] {
      var init, a := batch[..|batch| - 1], batch[|batch| - 1];
      S.LastStarts(jobs, multiset{}, batch, maxRetries);
      BatchTraced(jobs, init, maxRetries, i, t);
      S.AllStartedRefs(jobs, init, maxRetries);
      var id := jobs[i].ref.id;
      OneTraced(jobs, S.AllStarted(jobs, init, maxRetries), a.task.ref, a.node, maxRetries, i,
                GrownBy(t, Schedules(init, id), maxRetries));
      LastSchedule(t, batch, id, maxRetries);
    }
  }

  lemma LastSchedule<N>(t: Trace, batch: seq<C.Assignment<N>>, id: string, maxRetries: nat)
    requires batch != []
    ensures var init, task := batch[..|batch| - 1], batch[|batch| - 1].task.ref;
      var before := GrownBy(t, Schedules(init, id), maxRetries);
      GrownBy(t, Schedules(batch, id), maxRetries) ==
      if task.job == id then Grown(before, J.Schedule(task.task), maxRetries) else before
  {
    var init, task := batch[..|batch| - 1], batch[|batch| - 1].task.ref;
    if task.job == id {
      GrownByOne(t, Schedules(init, id), J.Schedule(task.task), maxRetries);
    } else {
      assert Schedules(batch, id) == Schedules(init, id);
    }
  }

  lemma OneTraced<N>(jobs0: seq<S.Entry<N>>, jobs: seq<S.Entry<N>>, task: TaskRef, n: N, maxRetries: nat, i: nat,
                     t: Trace)
    requires i < |jobs| == |jobs0| && S.Waits(jobs, task) && LeadsTo(t, jobs[i].world, maxRetries)
    requires S.Refs(jobs) == S.Refs(jobs0)
    requires forall k, l :: 0 <= k < l < |jobs0| ==> jobs0[k].ref.id != jobs0[l].ref.id
    ensures var w := S.OneStarted(jobs, task, n, maxRetries)[i].world;
      LeadsTo(if task.job == jobs0[i].ref.id then Grown(t, J.Schedule(task.task), maxRetries) else t, w, maxRetries)
  {
    assert forall k :: 0 <= k < |jobs| ==> S.Refs(jobs)[k] == jobs[k].ref && S.Refs(jobs0)[k] == jobs0[k].ref;
    var k := S.IndexOf(jobs, task.job);
    if k == i { GrownLeads(t, jobs[i].world, J.Schedule(task.task), maxRetries); }
  }

  ghost predicate Unique<N>(jobs: seq<S.Entry<N>>) {
    forall k, l :: 0 <= k < l < |jobs| ==> jobs[k].ref.id != jobs[l].ref.id
  }

  lemma UpdateTraced<N>(jobs: seq<S.Entry<N>>, traces: string -> Trace, maxRetries: nat, k: nat, e: J.Event,
                        entry: S.Entry<N>, i: nat)
    requires AllTraced(jobs, traces, maxRetries) && Unique(jobs) && k < |jobs| && i < |jobs|
    requires J.Enabled(jobs[k].world, e) && entry.world == J.Next(jobs[k].world, e, maxRetries)
    requires entry.ref == jobs[k].ref
    ensures var id := jobs[i].ref.id;
      LeadsTo(if jobs[k].ref.id == id then Grown(traces(id), e, maxRetries) else traces(id),
              jobs[k := entry][i].world, maxRetries)
  {
    if i == k { GrownLeads(traces(jobs[k].ref.id), jobs[k].world, e, maxRetries); }
  }

  lemma RemoveTraced<N>(jobs: seq<S.Entry<N>>, traces: string -> Trace, maxRetries: nat, k: nat, i: nat)
    requires AllTraced(jobs, traces, maxRetries) && Unique(jobs) && k < |jobs| && i < |Sequences.Without(jobs, k)|
    ensures var e := Sequences.Without(jobs, k)[i];
      e.ref.id != jobs[k].ref.id && LeadsTo(traces(e.ref.id), e.world, maxRetries)
  {
    var j := if i < k then i else i + 1;
    assert Sequences.Without(jobs, k)[i] == jobs[j];
  }

  lemma AddTraced<N>(s: S.Sys<N>, traces: string -> Trace, p: S.Params, entry: S.Entry<N>, i: nat)
    requires AllTraced(s.jobs, traces, p.maxRetries) && S.Enabled(s, S.AddJob(entry)) && i <= |s.jobs|
    ensures var job := S.Next(s, p, S.AddJob(entry)).jobs[i];
      LeadsTo(After(traces(job.ref.id), s, S.AddJob(entry), job.ref.id, p.maxRetries), job.world, p.maxRetries)
  {
    NewLeads(entry.world, p.maxRetries);
  }

  lemma StepTraced<N>(s: S.Sys<N>, traces: string -> Trace, p: S.Params, k: nat, je: J.Event, i: nat)
    requires AllTraced(s.jobs, traces, p.maxRetries) && Unique(s.jobs) && S.Enabled(s, S.JobStep(k, je))
    requires i < |S.Next(s, p, S.JobStep(k, je)).jobs|
    ensures var job := S.Next(s, p, S.JobStep(k, je)).jobs[i];
      LeadsTo(After(traces(job.ref.id), s, S.JobStep(k, je), job.ref.id, p.maxRetries), job.world, p.maxRetries)
  {
    var entry := S.Stepped(s.jobs[k], je, p.maxRetries);
    if entry.world.deleted {
      RemoveTraced(s.jobs, traces, p.maxRetries, k, i);
    } else {
      UpdateTraced(s.jobs, traces, p.maxRetries, k, je, entry, i);
    }
  }

  lemma DoneTraced<N>(s: S.Sys<N>, traces: string -> Trace, p: S.Params, k: nat, r: nat, flaky: bool, now: nat, i: nat)
    requires AllTraced(s.jobs, traces, p.maxRetries) && Unique(s.jobs)
    requires S.Enabled(s, S.TaskDone(k, r, flaky, now)) && i < |s.jobs|
    ensures var e := S.TaskDone(k, r, flaky, now);
      var job := S.Next(s, p, e).jobs[i];
      LeadsTo(After(traces(job.ref.id), s, e, job.ref.id, p.maxRetries), job.world, p.maxRetries)
  {
    var preempted := S.NodeReplaced(s.cluster, s.jobs[k].on[r]);
    UpdateTraced(s.jobs, traces, p.maxRetries, k, J.Callback(r, preempted),
                 S.CalledBack(s.jobs[k], r, preempted, p.maxRetries), i);
  }

  lemma StartTraced<N>(s: S.Sys<N>, traces: string -> Trace, p: S.Params, order: seq<string>, tasks: seq<C.TaskDef>,
                       batch: seq<C.Assignment<N>>, i: nat)
    requires AllTraced(s.jobs, traces, p.maxRetries) && Unique(s.jobs)
    requires S.Enabled(s, S.StartBatch(order, tasks, batch)) && i < |s.jobs|
    ensures var e := S.StartBatch(order, tasks, batch);
      i < |S.Next(s, p, e).jobs| && var job := S.Next(s, p, e).jobs[i];
      LeadsTo(After(traces(job.ref.id), s, e, job.ref.id, p.maxRetries), job.world, p.maxRetries)
  {
    SameNumber(s.jobs, batch, p.maxRetries);
    BatchTraced(s.jobs, batch, p.maxRetries, i, traces(s.jobs[i].ref.id));
  }

  lemma NextTraced<N>(s: S.Sys<N>, traces: string -> Trace, p: S.Params, e: S.Event<N>, i: nat)
    requires AllTraced(s.jobs, traces, p.maxRetries) && Unique(s.jobs) && S.Enabled(s, e)
    requires i < |S.Next(s, p, e).jobs|
    ensures var job := S.Next(s, p, e).jobs[i];
      LeadsTo(After(traces(job.ref.id), s, e, job.ref.id, p.maxRetries), job.world, p.maxRetries)
  {
    match e
    case AddJob(entry) => AddTraced(s, traces, p, entry, i);
    case JobStep(k, je) => StepTraced(s, traces, p, k, je, i);
    case StartBatch(order, tasks, batch) =>
      SameNumber(s.jobs, batch, p.maxRetries);
      StartTraced(s, traces, p, order, tasks, batch, i);
    case TaskDone(k, r, flaky, now) => DoneTraced(s, traces, p, k, r, flaky, now, i);
    case NodeStep(_) =>
  }

  /** In every run of the scheduler, the steps of each job are a run of the job protocol that leads to its state. */
  lemma {:induction false} JobsAreTraced<N(!new)>(p: S.Params, events: seq<S.Event<N>>, i: nat)
    requires i < |S.Run(p, events).jobs|
    ensures var job := S.Run(p, events).jobs[i]; LeadsTo(TraceOf(p, events, job.ref.id), job.world, p.maxRetries)
  {
    if events != [] {
      var init, e := events[..|events| - 1], events[|events| - 1];
      var s := S.Run(p, init);
      S.RunKeepsInv(p, init);
      var traces := (id: string) => TraceOf(p, init, id);
      forall k: nat | k < |s.jobs| ensures LeadsTo(traces(s.jobs[k].ref.id), s.jobs[k].world, p.maxRetries) {
        JobsAreTraced(p, init, k);
      }
      if S.Enabled(s, e) { NextTraced(s, traces, p, e, i); }
    }
  }

  // -------------------------------------------------------------------------------------------
  // What follows for the jobs of a scheduler.

  /** In every run of the scheduler, the first EndSaga of a job is accepted exactly when no run of its tasks that was
      not a last try came back ABORTED unasked. */
  lemma EndSagaAcceptedIff<N(!new)>(p: S.Params, events: seq<S.Event<N>>, i: nat)
    requires i < |S.Run(p, events).jobs|
    requires var w := S.Run(p, events).jobs[i].world; J.Enabled(w, J.SendEndSaga) && !w.closed
    ensures var job := S.Run(p, events).jobs[i];
      var t := TraceOf(p, events, job.ref.id);
      |t.es| < |t.ws| &&
      (J.Accepts(job.world, J.Sends(job.world, J.SendEndSaga).value) <==>
       !exists j :: 0 <= j < |t.es| && E.GivesUp(t.ws[j], t.es[j]))
  {
    var job := S.Run(p, events).jobs[i];
    var t := TraceOf(p, events, job.ref.id);
    JobsAreTraced(p, events, i);
    EndSagaAfter(t, job.world, p.maxRetries);
  }

  lemma EndSagaAfter(t: Trace, w: J.World, maxRetries: nat)
    requires LeadsTo(t, w, maxRetries) && J.Enabled(w, J.SendEndSaga) && !w.closed
    ensures J.Accepts(w, J.Sends(w, J.SendEndSaga).value) <==>
            !exists j :: 0 <= j < |t.es| && E.GivesUp(t.ws[j], t.es[j])
  {
    J.RunKeepsInv(t.ws, t.es, maxRetries, |t.es|);
    J.AllDoneMeansQuiet(w);
    assert w.runners == map[];
    J.MayEndIffLogged(w);
    E.CleanOwesNothing(t.ws, t.es, maxRetries, |t.es|);
  }

  /** In every run of the scheduler, a job's saga refuses no task message, and is sent no StartTask once the task's
      EndTask is logged. */
  lemma NoStartAfterEnd<N(!new)>(p: S.Params, events: seq<S.Event<N>>, i: nat, je: J.Event)
    requires S.Enabled(S.Run(p, events), S.JobStep(i, je)) && je != J.SendEndSaga
    requires J.Sends(S.Run(p, events).jobs[i].world, je).Some?
    ensures var w := S.Run(p, events).jobs[i].world;
      var m := J.Sends(w, je).value;
      J.Accepts(w, m) && (m.kind == SagaSpec.StartTask ==> !w.saga.FlagsOf(m.taskId).completed)
  {
    var w := S.Run(p, events).jobs[i].world;
    JobsAreTraced(p, events, i);
    var t := TraceOf(p, events, S.Run(p, events).jobs[i].ref.id);
    J.RunKeepsInv(t.ws, t.es, p.maxRetries, |t.es|);
    J.TaskMessagesAccepted(w, je);
  }

  /** In every run of the scheduler, each task of a job is started at most once more than it may be retried, not
      counting starts taken back by preemption. */
  lemma RetriesBounded<N(!new)>(p: S.Params, events: seq<S.Event<N>>, i: nat, k: nat)
    requires i < |S.Run(p, events).jobs|
    ensures var t := TraceOf(p, events, S.Run(p, events).jobs[i].ref.id);
      |t.es| < |t.ws| && (k < |t.ws[0].job.tasks| ==>
        var id := t.ws[0].job.tasks[k].id;
        J.Starts(t.es, id) - J.Preemptions(t.ws, t.es, id) <= p.maxRetries + 1)
  {
    var t := TraceOf(p, events, S.Run(p, events).jobs[i].ref.id);
    JobsAreTraced(p, events, i);
    assert t.es[..|t.es|] == t.es;
    if k < |t.ws[0].job.tasks| { J.RetriesBounded(t.ws, t.es, p.maxRetries, |t.es|, k); }
  }

  /** In every run of the scheduler, once a kill request for a job has been dealt with, each of its runners was told to
      abort and none of its tasks waits. */
  lemma KillTellsAll<N(!new)>(p: S.Params, events: seq<S.Event<N>>, i: nat, data: SagaSpec.Bytes)
    requires S.Enabled(S.Run(p, events), S.JobStep(i, J.KillStep(data)))
    requires J.Next(S.Run(p, events).jobs[i].world, J.KillStep(data), p.maxRetries).killing.NotKilling?
    ensures H.AllTold(J.Next(S.Run(p, events).jobs[i].world, J.KillStep(data), p.maxRetries))
  {
    JobsAreTraced(p, events, i);
    var t, w := TraceOf(p, events, S.Run(p, events).jobs[i].ref.id), S.Run(p, events).jobs[i].world;
    KillToldAll(t, w, data, p.maxRetries);
  }

  lemma KillToldAll(t: Trace, w: J.World, data: SagaSpec.Bytes, maxRetries: nat)
    requires LeadsTo(t, w, maxRetries) && J.Enabled(w, J.KillStep(data))
    requires J.Next(w, J.KillStep(data), maxRetries).killing.NotKilling?
    ensures H.AllTold(J.Next(w, J.KillStep(data), maxRetries))
  {
    GrownLeads(t, w, J.KillStep(data), maxRetries);
    var t' := Grown(t, J.KillStep(data), maxRetries);
    H.KillTellsAll(t'.ws, t'.es, maxRetries, |t.es|);
  }

  /** In every run of the scheduler, what is done with a task whose attempt is over was decided by the outcome that the
      attempt had. */
  lemma OutcomeDecides<N(!new)>(p: S.Params, events: seq<S.Event<N>>, i: nat, r: nat, flaky: bool, now: nat)
    returns (j: nat)
    requires S.Enabled(S.Run(p, events), S.TaskDone(i, r, flaky, now))
    ensures var s := S.Run(p, events);
      var t := TraceOf(p, events, s.jobs[i].ref.id);
      && |t.es| < |t.ws| && j < |t.es| && H.Finishes(t.es[j], r)
      && i < |S.Next(s, p, S.TaskDone(i, r, flaky, now)).jobs|
      && H.Decided(s.jobs[i].world, S.Next(s, p, S.TaskDone(i, r, flaky, now)).jobs[i].world, r, t.es[j].outcome,
                   H.Tries(t.ws, t.es, |t.es|, s.jobs[i].world.runners[r].task), p.maxRetries)
  {
    var s := S.Run(p, events);
    JobsAreTraced(p, events, i);
    var t := TraceOf(p, events, s.jobs[i].ref.id);
    j := OutcomeDecided(t, s.jobs[i].world, r, S.NodeReplaced(s.cluster, s.jobs[i].on[r]), p.maxRetries);
  }

  lemma OutcomeDecided(t: Trace, w: J.World, r: nat, preempted: bool, maxRetries: nat) returns (j: nat)
    requires LeadsTo(t, w, maxRetries) && J.Enabled(w, J.Callback(r, preempted))
    ensures j < |t.es| && H.Finishes(t.es[j], r)
    ensures H.Decided(w, J.Next(w, J.Callback(r, preempted), maxRetries), r, t.es[j].outcome,
                      H.Tries(t.ws, t.es, |t.es|, w.runners[r].task), maxRetries)
  {
    j := H.HadOutcome(t.ws, t.es, maxRetries, |t.es|, r);
    GrownLeads(t, w, J.Callback(r, preempted), maxRetries);
    var t' := Grown(t, J.Callback(r, preempted), maxRetries);
    H.OutcomeDecides(t'.ws, t'.es, maxRetries, j, |t.es|);
    H.TriesOfPrefix(t.ws, t.es, t'.ws[|t'.es|], J.Callback(r, preempted), w.runners[r].task);
  }

  /** In every run of the scheduler, the end of an attempt counts as a preemption exactly when another node has taken
      the place of the one it was started on. */
  lemma PreemptedIffReplaced<N(!new)>(p: S.Params, events: seq<S.Event<N>>, i: nat, r: nat, flaky: bool, now: nat)
    requires S.Enabled(S.Run(p, events), S.TaskDone(i, r, flaky, now))
    ensures var s := S.Run(p, events);
      var n, id, nodes := s.jobs[i].on[r], s.jobs[i].ref.id, s.cluster.nodes;
      var after := TraceOf(p, events + [S.TaskDone(i, r, flaky, now)], id);
      && n in s.cluster.info && |after.es| == |TraceOf(p, events, id).es| + 1
      && after.es[|after.es| - 1] ==
         J.Callback(r, exists k :: k in nodes && k == s.cluster.info[n].id && nodes[k] != n)
  {
    var s := S.Run(p, events);
    var e: S.Event<N> := S.TaskDone(i, r, flaky, now);
    assert (events + [e])[..|events|] == events;
    JobsAreTraced(p, events, i);
    StartedOnKnown(p, events, i, r);
    CallbackIsTraced(TraceOf(p, events, s.jobs[i].ref.id), s, e, p.maxRetries);
  }

  lemma StartedOnKnown<N(!new)>(p: S.Params, events: seq<S.Event<N>>, i: nat, r: nat)
    requires var s := S.Run(p, events); i < |s.jobs| && r in s.jobs[i].on
    ensures var s := S.Run(p, events); s.jobs[i].on[r] in s.cluster.info
  {
    var s := S.Run(p, events);
    S.RunKeepsInv(p, events);
    S.JobsHave(s.jobs, i, r);
    S.CallbackFires(p, s.cluster, S.JoinedIds(events), s.jobs[i].on[r], false, 1);
  }

  lemma CallbackIsTraced<N>(t: Trace, s: S.Sys<N>, e: S.Event<N>, maxRetries: nat)
    requires S.Enabled(s, e) && e.TaskDone? && LeadsTo(t, s.jobs[e.i].world, maxRetries)
    ensures After(t, s, e, s.jobs[e.i].ref.id, maxRetries).es ==
            t.es + [J.Callback(e.r, S.NodeReplaced(s.cluster, s.jobs[e.i].on[e.r]))]
  {
  }
}
