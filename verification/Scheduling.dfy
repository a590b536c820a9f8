/** One pass of scheduleTasks: the allocator chooses tasks, the cluster gives them nodes and starts them. */
module Scheduling {
  import opened JobSpec
  import opened Sequences
  import opened TaskGroups
  import opened Allocator
  import opened Cluster
  import C = ClusterSpec
  import R = ClusterRuns
  import S = Scheduler
  import T = JobTable

  /** The job a reference in the requestor map stands for, as the allocator sees it. */
  function ViewOfRef<N>(jobs: seq<S.Entry<N>>, ref: T.JobRef): JobView {
    var i := S.IndexOf(jobs, ref.id);
    if i < |jobs| then S.ViewOf(jobs[i]) else JobView(ref.id, ref.requestor, ref.tag, ref.priority, Job([], 0, 0))
  }

  function ViewsOfRefs<N>(jobs: seq<S.Entry<N>>, refs: seq<T.JobRef>): seq<JobView> {
    seq(|refs|, k requires 0 <= k < |refs| => ViewOfRef(jobs, refs[k]))
  }

  /** The requestor map, as the allocator sees it. */
  function Requestors<N>(s: S.Sys<N>): map<string, seq<JobView>> {
    map r | r in s.table :: ViewsOfRefs(s.jobs, s.table[r])
  }

  /** The view is that of the job in progress that the reference names. */
  ghost predicate ShowsOne<N>(jobs: seq<S.Entry<N>>, ref: T.JobRef, v: JobView) {
    exists i :: 0 <= i < |jobs| && jobs[i].ref == ref && v == S.ViewOf(jobs[i])
  }

  ghost predicate Shows<N>(jobs: seq<S.Entry<N>>, refs: seq<T.JobRef>, views: seq<JobView>) {
    |views| == |refs| && forall k :: 0 <= k < |refs| ==> ShowsOne(jobs, refs[k], views[k])
  }

  lemma RefIsShown<N>(jobs: seq<S.Entry<N>>, ref: T.JobRef, maxRetries: nat)
    requires S.JobsOk(jobs, maxRetries) && ref in S.Refs(jobs)
    ensures ShowsOne(jobs, ref, ViewOfRef(jobs, ref))
  {
    var i :| 0 <= i < |jobs| && S.Refs(jobs)[i] == ref;
    S.IndexAt(jobs, i);
    assert jobs[i].ref == ref && ViewOfRef(jobs, ref) == S.ViewOf(jobs[i]);
  }

  lemma RefsAreShown<N>(jobs: seq<S.Entry<N>>, refs: seq<T.JobRef>, maxRetries: nat)
    requires S.JobsOk(jobs, maxRetries) && forall j <- refs :: j in S.Refs(jobs)
    ensures Shows(jobs, refs, ViewsOfRefs(jobs, refs))
  {
    forall k | 0 <= k < |refs| ensures ShowsOne(jobs, refs[k], ViewsOfRefs(jobs, refs)[k]) {
      RefIsShown(jobs, refs[k], maxRetries);
    }
  }

  ghost predicate ListIsConsistent<N>(jobs: seq<S.Entry<N>>, views: seq<JobView>, r: string) {
    WellFormedJobs(views) && forall v <- views :: v in S.Views(jobs) && v.requestor == r
  }

  lemma OneListIsConsistent<N>(jobs: seq<S.Entry<N>>, refs: seq<T.JobRef>, views: seq<JobView>, r: string,
                               maxRetries: nat)
    requires S.JobsOk(jobs, maxRetries) && WellFormedJobs(S.Views(jobs))
    requires Shows(jobs, refs, views) && T.UniqueJobs(refs)
    requires forall j <- refs :: j.requestor == r
    ensures ListIsConsistent(jobs, views, r)
  {
    forall k | 0 <= k < |views|
      ensures views[k] in S.Views(jobs) && views[k].requestor == r && views[k].id == refs[k].id
    {
      assert ShowsOne(jobs, refs[k], views[k]);
      var i :| 0 <= i < |jobs| && jobs[i].ref == refs[k] && views[k] == S.ViewOf(jobs[i]);
      assert S.Views(jobs)[i] == views[k];
      assert refs[k] in refs;
    }
  }

  lemma OneJobIsListed<N>(jobs: seq<S.Entry<N>>, refs: seq<T.JobRef>, views: seq<JobView>, i: nat, maxRetries: nat)
    requires S.JobsOk(jobs, maxRetries) && Shows(jobs, refs, views) && i < |jobs| && jobs[i].ref in refs
    ensures S.ViewOf(jobs[i]) in views
  {
    var k :| 0 <= k < |refs| && refs[k] == jobs[i].ref;
    assert ShowsOne(jobs, refs[k], views[k]);
    var j :| 0 <= j < |jobs| && jobs[j].ref == refs[k] && views[k] == S.ViewOf(jobs[j]);
    assert i == j;
  }

  lemma ListsAreConsistent<N>(s: S.Sys<N>, maxRetries: nat)
    requires S.JobsOk(s.jobs, maxRetries) && S.Tabled(s.jobs, s.table) && WellFormedJobs(S.Views(s.jobs))
    ensures forall r <- s.table :: Shows(s.jobs, s.table[r], Requestors(s)[r]) &&
                                   ListIsConsistent(s.jobs, Requestors(s)[r], r)
  {
    forall r | r in s.table
      ensures Shows(s.jobs, s.table[r], Requestors(s)[r]) && ListIsConsistent(s.jobs, Requestors(s)[r], r)
    {
      T.OfRequestorMembers(S.Refs(s.jobs), r);
      T.OfRequestorUnique(S.Refs(s.jobs), r);
      RefsAreShown(s.jobs, s.table[r], maxRetries);
      OneListIsConsistent(s.jobs, s.table[r], Requestors(s)[r], r, maxRetries);
    }
  }

  lemma JobsAreListed<N>(s: S.Sys<N>, maxRetries: nat, v: JobView)
    requires S.JobsOk(s.jobs, maxRetries) && S.Tabled(s.jobs, s.table) && v in S.Views(s.jobs)
    requires forall r <- s.table :: Shows(s.jobs, s.table[r], Requestors(s)[r])
    ensures v.requestor in s.table && v in Requestors(s)[v.requestor]
  {
    var i := S.ViewAt(s.jobs, v);
    var r := v.requestor;
    T.OfRequestorMembers(S.Refs(s.jobs), r);
    assert S.Refs(s.jobs)[i] == s.jobs[i].ref;
    OneJobIsListed(s.jobs, s.table[r], Requestors(s)[r], i, maxRetries);
  }

  /** What the scheduler keeps is what the allocator relies on: the requestor map shows exactly the jobs in progress. */
  lemma TableIsConsistent<N(!new)>(s: S.Sys<N>, p: S.Params, ids: set<string>)
    requires S.Inv(s, p, ids)
    ensures Consistent(S.Views(s.jobs), Requestors(s))
  {
    S.ViewsAreWellFormed(s.jobs, p.maxRetries);
    ListsAreConsistent(s, p.maxRetries);
    forall v | v in S.Views(s.jobs) ensures v.requestor in Requestors(s) && v in Requestors(s)[v.requestor] {
      JobsAreListed(s, p.maxRetries, v);
    }
  }

  function TaskDefs(chosen: seq<TaskRef>, snapshots: map<TaskRef, string>): seq<C.TaskDef>
    requires forall t <- chosen :: t in snapshots
  {
    seq(|chosen|, i requires 0 <= i < |chosen| => C.TaskDef(chosen[i], snapshots[chosen[i]]))
  }

  /** Every task put on a node was waiting, no task is used twice, each node is healthy and, with the workers' ids
      apart, free and used once; no more tasks are chosen than nodes are free, and some task is chosen if one waits
      and a node is free. */
  method ScheduleTasks(cs: ClusterState, jobs: seq<JobView>, requestors: map<string, seq<JobView>>,
                       snapshots: map<TaskRef, string>, order: seq<string>)
    returns (chosen: seq<TaskRef>, batch: seq<C.Assignment<NodeState>>, ghost plans: seq<Plan>)
    requires cs.Valid() && Consistent(jobs, requestors) && forall g <- cs.groups :: g in order
    requires forall t :: IsWaiting(jobs, t) ==> t in snapshots
    modifies cs, cs.info.Keys
    ensures |chosen| <= old(cs.NumFree()) && NoDup(chosen) && forall t <- chosen :: t in snapshots && IsWaiting(jobs, t)
    ensures chosen == [] <==> old(cs.NumFree()) == 0 || forall v <- jobs :: Waiting(v) == []
    ensures chosen != [] ==> |chosen| + |old(cs.pending)| <= |old(cs.nodes)|
    ensures chosen == [] ==> |old(cs.nodes)| <= |old(cs.pending)| || forall v <- jobs :: Waiting(v) == []
    ensures chosen != [] ==>
      && Outstanding(jobs) > 0 && SharedOut(plans, old(cs.NumFree()), chosen)
      && PlansFollow(plans, requestors, Scale(Outstanding(jobs), |old(cs.nodes)|), old(cs.NumFree()))
    ensures cs.Valid() && cs.history == old(cs.history) + [R.Starts(order, TaskDefs(chosen, snapshots), batch)]
    ensures C.AssignedInTurn(old(cs.Abs()), order, TaskDefs(chosen, snapshots), batch)
    ensures C.FitBatch(old(cs.Abs()), C.Left(old(cs.groups), batch), batch, C.Apart(R.JoinedIds(old(cs.history))))
  {
    R.NoDoubleBooking(cs.cfg, cs.history, order, [], []);
    chosen, plans := SelectTasks(|cs.nodes|, cs.NumFree(), jobs, requestors);
    batch := cs.StartTasks(TaskDefs(chosen, snapshots), order);
    R.NoDoubleBooking(cs.cfg, old(cs.history), order, TaskDefs(chosen, snapshots), batch);
  }

  lemma {:induction false} TasksInTurn<N>(c: C.State<N>, order: seq<string>, tasks: seq<C.TaskDef>,
                                          batch: seq<C.Assignment<N>>)
    requires C.AssignedInTurn(c, order, tasks, batch)
    ensures |batch| <= |tasks| && forall i :: 0 <= i < |batch| ==> batch[i].task == tasks[i]
    decreases |batch|
  {
    if batch != [] {
      TasksInTurn(c, order, tasks, batch[..|batch| - 1]);
      assert forall i :: 0 <= i < |batch| - 1 ==> batch[i] == batch[..|batch| - 1][i];
    }
  }

  lemma ChosenCanStart<N>(s: S.Sys<N>, p: S.Params, order: seq<string>, chosen: seq<TaskRef>,
                          tasks: seq<C.TaskDef>, batch: seq<C.Assignment<N>>)
    requires S.JobsOk(s.jobs, p.maxRetries) && NoneBeingKilled(s.jobs)
    requires NoDup(chosen) && forall t <- chosen :: IsWaiting(S.Views(s.jobs), t)
    requires |tasks| == |chosen| && forall i :: 0 <= i < |tasks| ==> tasks[i].ref == chosen[i]
    requires C.AssignedInTurn(s.cluster, order, tasks, batch)
    ensures S.Startable(s.jobs, batch)
  {
    TasksInTurn(s.cluster, order, tasks, batch);
    forall i | 0 <= i < |batch| ensures batch[i].task.ref == chosen[i] && S.Waits(s.jobs, batch[i].task.ref) {
      assert chosen[i] in chosen;
      S.WaitingCanStart(s.jobs, chosen[i], p.maxRetries);
    }
  }

  /** What one pass of the allocator may choose, given the state it sees. */
  ghost predicate Chooses<N>(s: S.Sys<N>, plans: seq<Plan>, chosen: seq<TaskRef>) {
    var jobs, free := S.Views(s.jobs), Max(0, |s.cluster.nodes| - s.cluster.numRunning);
    chosen == [] ||
    (Outstanding(jobs) > 0 && PlansFollow(plans, Requestors(s), Scale(Outstanding(jobs), |s.cluster.nodes|), free) &&
     chosen == Chosen(plans, free))
  }

  lemma ChosenAreWaiting<N(!new)>(s: S.Sys<N>, p: S.Params, ids: set<string>, plans: seq<Plan>, chosen: seq<TaskRef>)
    requires S.Inv(s, p, ids) && Chooses(s, plans, chosen)
    ensures NoDup(chosen) && forall t <- chosen :: IsWaiting(S.Views(s.jobs), t)
  {
    var jobs, free := S.Views(s.jobs), Max(0, |s.cluster.nodes| - s.cluster.numRunning);
    TableIsConsistent(s, p, ids);
    if chosen != [] {
      ChosenIsSound(plans, jobs, Requestors(s), Scale(Outstanding(jobs), |s.cluster.nodes|), free);
    }
  }

  ghost predicate NoneBeingKilled<N>(jobs: seq<S.Entry<N>>) {
    forall i :: 0 <= i < |jobs| ==> S.J.LoopFree(jobs[i].world)
  }

  /** The tasks a pass chose, and the nodes they were given. */
  ghost predicate Schedules<N>(s: S.Sys<N>, plans: seq<Plan>, chosen: seq<TaskRef>, tasks: seq<C.TaskDef>,
                               order: seq<string>, batch: seq<C.Assignment<N>>) {
    && Chooses(s, plans, chosen) && |tasks| == |chosen| && (forall i :: 0 <= i < |tasks| ==> tasks[i].ref == chosen[i])
    && C.AssignedInTurn(s.cluster, order, tasks, batch)
  }

  lemma ScheduledBatchStarts<N(!new)>(s: S.Sys<N>, p: S.Params, ids: set<string>, plans: seq<Plan>,
                                      chosen: seq<TaskRef>, tasks: seq<C.TaskDef>, order: seq<string>,
                                      batch: seq<C.Assignment<N>>)
    requires S.Inv(s, p, ids) && NoneBeingKilled(s.jobs) && Schedules(s, plans, chosen, tasks, order, batch)
    ensures S.Enabled(s, S.StartBatch(order, tasks, batch))
  {
    ChosenAreWaiting(s, p, ids, plans, chosen);
    ChosenCanStart(s, p, order, chosen, tasks, batch);
  }

  /** From whatever state a run of the scheduler has led to, with no job just being killed, what one pass chooses and
      assigns is a step the scheduler can take, and it keeps all accounts in order. */
  lemma PassIsAStep<N(!new)>(p: S.Params, events: seq<S.Event<N>>, plans: seq<Plan>, chosen: seq<TaskRef>,
                             tasks: seq<C.TaskDef>, order: seq<string>, batch: seq<C.Assignment<N>>)
    requires var s := S.Run(p, events);
      NoneBeingKilled(s.jobs) && Schedules(s, plans, chosen, tasks, order, batch)
    ensures var s, e := S.Run(p, events), S.StartBatch(order, tasks, batch);
      S.Enabled(s, e) && S.Inv(S.Next(s, p, e), p, S.JoinedIds(events))
  {
    var s, ids := S.Run(p, events), S.JoinedIds(events);
    S.RunKeepsInv(p, events);
    ScheduledBatchStarts(s, p, ids, plans, chosen, tasks, order, batch);
    S.StartBatchKeepsInv(s, p, ids, order, tasks, batch);
  }
}
