/** The scheduler as a whole: all jobs in progress, each with its saga and task runners, over one cluster. What the
    per-job protocol and the cluster state say separately is tied together here by who runs on which node. */
module Scheduler {
  import opened JobSpec
  import opened Sequences
  import opened TaskGroups
  import J = JobProtocol
  import T = JobTable
  import C = ClusterSpec
  import R = ClusterRuns

  /** A job in progress; `on` gives the node each of its task runners was started on. */
  datatype Entry<N> = Entry(ref: T.JobRef, world: J.World, on: map<nat, N>)

  /** The jobs in progress, the same jobs listed by requestor, and the cluster. */
  datatype Sys<N> = Sys(jobs: seq<Entry<N>>, table: map<string, seq<T.JobRef>>, cluster: C.State<N>)

  // -------------------------------------------------------------------------------------------
  // Sums over the jobs.

  ghost function Sum<E>(jobs: seq<E>, f: E -> int): int {
    if jobs == [] then 0 else Sum(jobs[..|jobs| - 1], f) + f(jobs[|jobs| - 1])
  }

  lemma {:induction false} SumUpdate<E>(jobs: seq<E>, f: E -> int, i: nat, e: E)
    requires i < |jobs|
    ensures Sum(jobs[i := e], f) == Sum(jobs, f) - f(jobs[i]) + f(e)
  {
    var n := |jobs| - 1;
    if i < n {
      SumUpdate(jobs[..n], f, i, e);
      assert jobs[i := e][..n] == jobs[..n][i := e];
    } else {
      assert jobs[i := e][..n] == jobs[..n];
    }
  }

  lemma {:induction false} SumRemove<E>(jobs: seq<E>, f: E -> int, i: nat)
    requires i < |jobs|
    ensures Sum(Without(jobs, i), f) == Sum(jobs, f) - f(jobs[i])
  {
    var n := |jobs| - 1;
    WithoutInit(jobs, i);
    if i < n {
      SumRemove(jobs[..n], f, i);
      assert Without(jobs, i)[..n - 1] == Without(jobs[..n], i);
    }
  }

  lemma SumAppend<E>(jobs: seq<E>, f: E -> int, e: E)
    ensures Sum(jobs + [e], f) == Sum(jobs, f) + f(e)
  {
    assert (jobs + [e])[..|jobs|] == jobs;
  }

  function RunningOf<N>(e: Entry<N>): int { e.world.job.running }

  /** The tasks the jobs count as running. */
  ghost function TasksRunning<N>(jobs: seq<Entry<N>>): int { Sum(jobs, RunningOf) }

  // -------------------------------------------------------------------------------------------
  // The nodes the jobs hold.

  ghost function Held<N>(on: map<nat, N>): multiset<N> {
    if on.Keys == {} then multiset{} else var r :| r in on; multiset{on[r]} + Held(on - {r})
  }

  lemma {:induction false} HeldRemove<N>(on: map<nat, N>, r: nat)
    requires r in on
    ensures Held(on) == multiset{on[r]} + Held(on - {r})
    decreases |on|
  {
    var q :| q in on && Held(on) == multiset{on[q]} + Held(on - {q});
    if q != r {
      assert on - {q} - {r} == on - {r} - {q};
      HeldRemove(on - {q}, r);
      HeldRemove(on - {r}, q);
      SwapLast(Held(on - {r} - {q}), multiset{on[q]}, multiset{on[r]});
    }
  }

  lemma HeldAdd<N>(on: map<nat, N>, r: nat, n: N)
    requires r !in on
    ensures Held(on[r := n]) == Held(on) + multiset{n}
  {
    HeldRemove(on[r := n], r);
    assert on[r := n] - {r} == on;
  }

  lemma {:induction false} HeldSize<N>(on: map<nat, N>)
    ensures |Held(on)| == |on|
    decreases |on|
  {
    if on.Keys != {} {
      var r :| r in on;
      HeldRemove(on, r);
      HeldSize(on - {r});
      assert (on - {r}).Keys == on.Keys - {r};
    }
  }

  /** The nodes that the task runners of the jobs were started on, each as often as it was. */
  ghost function HeldBy<N>(jobs: seq<Entry<N>>): multiset<N> {
    if jobs == [] then multiset{} else HeldBy(jobs[..|jobs| - 1]) + Held(jobs[|jobs| - 1].on)
  }

  lemma HeldAppend<N>(jobs: seq<Entry<N>>, e: Entry<N>)
    ensures HeldBy(jobs + [e]) == HeldBy(jobs) + Held(e.on)
  {
    assert (jobs + [e])[..|jobs|] == jobs;
  }

  /** What the job at `i` holds is part of what the jobs hold. */
  lemma {:induction false} HeldSplit<N>(jobs: seq<Entry<N>>, i: nat)
    requires i < |jobs|
    ensures HeldBy(jobs) == HeldBy(Without(jobs, i)) + Held(jobs[i].on)
  {
    var n := |jobs| - 1;
    WithoutInit(jobs, i);
    if i < n {
      HeldSplit(jobs[..n], i);
      HeldAppend(Without(jobs[..n], i), jobs[n]);
      SwapLast(HeldBy(Without(jobs[..n], i)), Held(jobs[i].on), Held(jobs[n].on));
    }
  }

  lemma SwapLast<N>(a: multiset<N>, b: multiset<N>, c: multiset<N>)
    ensures a + b + c == a + c + b
  {
  }

  lemma HeldUpdate<N>(jobs: seq<Entry<N>>, i: nat, e: Entry<N>)
    requires i < |jobs|
    ensures HeldBy(jobs[i := e]) == HeldBy(Without(jobs, i)) + Held(e.on)
  {
    HeldSplit(jobs[i := e], i);
    assert Without(jobs[i := e], i) == Without(jobs, i);
  }

  /** The task runners whose completion callback has not run. */
  ghost function Callbacks<N>(jobs: seq<Entry<N>>): int {
    if jobs == [] then 0 else Callbacks(jobs[..|jobs| - 1]) + |jobs[|jobs| - 1].on|
  }

  lemma {:induction false} HeldCount<N>(jobs: seq<Entry<N>>)
    ensures |HeldBy(jobs)| == Callbacks(jobs)
  {
    if jobs != [] {
      HeldCount(jobs[..|jobs| - 1]);
      HeldSize(jobs[|jobs| - 1].on);
    }
  }

  /** No two task runners are on the same node. */
  ghost predicate OwnNodes<N>(jobs: seq<Entry<N>>) {
    forall i, r, j, q :: 0 <= i < |jobs| && r in jobs[i].on && 0 <= j < |jobs| && q in jobs[j].on ==>
      jobs[i].on[r] != jobs[j].on[q] || (i == j && r == q)
  }

  lemma HeldHas<N>(on: map<nat, N>, r: nat)
    requires r in on
    ensures on[r] in Held(on)
  {
    HeldRemove(on, r);
  }

  lemma {:induction false} JobsHave<N>(jobs: seq<Entry<N>>, i: nat, r: nat)
    requires i < |jobs| && r in jobs[i].on
    ensures jobs[i].on[r] in HeldBy(jobs)
  {
    HeldSplit(jobs, i);
    HeldHas(jobs[i].on, r);
  }

  lemma SharedIsHeldTwice<N>(jobs: seq<Entry<N>>, i: nat, r: nat, j: nat, q: nat)
    requires i < |jobs| && r in jobs[i].on && j < |jobs| && q in jobs[j].on && (i != j || r != q)
    requires jobs[i].on[r] == jobs[j].on[q]
    ensures HeldBy(jobs)[jobs[i].on[r]] >= 2
  {
    HeldSplit(jobs, i);
    if i == j {
      SharedInJob(jobs[i].on, r, q);
    } else {
      var k := if j < i then j else j - 1;
      assert Without(jobs, i)[k] == jobs[j];
      JobsHave(Without(jobs, i), k, q);
      HeldHas(jobs[i].on, r);
    }
  }

  lemma SharedInJob<N>(on: map<nat, N>, r: nat, q: nat)
    requires r in on && q in on && r != q && on[r] == on[q]
    ensures Held(on)[on[r]] >= 2
  {
    HeldRemove(on, r);
    HeldHas(on - {r}, q);
  }

  lemma OneEachOwnNodes<N>(jobs: seq<Entry<N>>)
    requires R.OneEach(HeldBy(jobs))
    ensures OwnNodes(jobs)
  {
    forall i, r, j, q | 0 <= i < |jobs| && r in jobs[i].on && 0 <= j < |jobs| && q in jobs[j].on && (i != j || r != q)
      ensures jobs[i].on[r] != jobs[j].on[q]
    {
      if jobs[i].on[r] == jobs[j].on[q] { SharedIsHeldTwice(jobs, i, r, j, q); }
    }
  }

  // -------------------------------------------------------------------------------------------
  // The invariant.

  ghost predicate EntryOk<N>(e: Entry<N>, maxRetries: nat) {
    J.Reachable(e.world, maxRetries) && !e.world.deleted && e.on.Keys == e.world.runners.Keys
  }

  ghost predicate JobsOk<N>(jobs: seq<Entry<N>>, maxRetries: nat) {
    && (forall i :: 0 <= i < |jobs| ==> EntryOk(jobs[i], maxRetries))
    && (forall i, j :: 0 <= i < j < |jobs| ==> jobs[i].ref.id != jobs[j].ref.id)
  }

  /** The jobs as a whole: they hold exactly the nodes the cluster has tasks outstanding on, and count as running
      as many tasks as the cluster does. */
  ghost predicate Accounted<N>(jobs: seq<Entry<N>>, pending: multiset<N>, numRunning: int, maxRetries: nat) {
    JobsOk(jobs, maxRetries) && HeldBy(jobs) == pending && TasksRunning(jobs) == numRunning
  }

  function Refs<N>(jobs: seq<Entry<N>>): seq<T.JobRef> { seq(|jobs|, i requires 0 <= i < |jobs| => jobs[i].ref) }

  /** The requestor map lists exactly the jobs in progress, and no job has a priority there is not. */
  ghost predicate Tabled<N>(jobs: seq<Entry<N>>, table: map<string, seq<T.JobRef>>) {
    T.Indexed(Refs(jobs), table) && forall i :: 0 <= i < |jobs| ==> jobs[i].ref.priority <= T.MAX_PRIORITY
  }

  datatype Params = Params(maxRetries: nat, cfg: C.Config)

  /** `ids` are those of the workers seen so far. */
  ghost predicate Inv<N(!new)>(s: Sys<N>, p: Params, ids: set<string>) {
    && Accounted(s.jobs, s.cluster.pending, s.cluster.numRunning, p.maxRetries)
    && Tabled(s.jobs, s.table) && R.Reachable(p.cfg, s.cluster, ids)
  }

  // -------------------------------------------------------------------------------------------
  // Steps of one job.

  /** The task starts on node `n` as the job's next task runner. */
  ghost function StartedOn<N>(e: Entry<N>, id: string, n: N, maxRetries: nat): Entry<N>
    requires J.Enabled(e.world, J.Schedule(id))
  {
    e.(world := J.Next(e.world, J.Schedule(id), maxRetries), on := e.on[e.world.next := n])
  }

  ghost function CalledBack<N>(e: Entry<N>, r: nat, preempted: bool, maxRetries: nat): Entry<N>
    requires J.Enabled(e.world, J.Callback(r, preempted))
  {
    e.(world := J.Next(e.world, J.Callback(r, preempted), maxRetries), on := e.on - {r})
  }

  ghost function Stepped<N>(e: Entry<N>, je: J.Event, maxRetries: nat): Entry<N>
    requires J.Enabled(e.world, je)
  {
    e.(world := J.Next(e.world, je, maxRetries))
  }

  lemma StartKeepsEntry<N>(e: Entry<N>, id: string, n: N, maxRetries: nat)
    requires EntryOk(e, maxRetries) && J.Enabled(e.world, J.Schedule(id))
    ensures var e' := StartedOn(e, id, n, maxRetries);
      && EntryOk(e', maxRetries) && e.world.next !in e.on
      && RunningOf(e') == RunningOf(e) + 1 && Held(e'.on) == Held(e.on) + multiset{n}
  {
    J.StepIsReachable(e.world, J.Schedule(id), maxRetries);
    J.NextRunnerIsNew(e.world, maxRetries);
    assert e.on[e.world.next := n].Keys == e.on.Keys + {e.world.next};
    HeldAdd(e.on, e.world.next, n);
  }

  lemma CallbackKeepsEntry<N>(e: Entry<N>, r: nat, preempted: bool, maxRetries: nat)
    requires EntryOk(e, maxRetries) && J.Enabled(e.world, J.Callback(r, preempted))
    ensures var e' := CalledBack(e, r, preempted, maxRetries);
      && EntryOk(e', maxRetries) && RunningOf(e') == RunningOf(e) - 1
      && r in e.on && Held(e.on) == multiset{e.on[r]} + Held(e'.on)
  {
    J.StepIsReachable(e.world, J.Callback(r, preempted), maxRetries);
    assert (e.on - {r}).Keys == e.on.Keys - {r};
    HeldRemove(e.on, r);
  }

  lemma OtherKeepsEntry<N>(e: Entry<N>, je: J.Event, maxRetries: nat)
    requires EntryOk(e, maxRetries) && J.Enabled(e.world, je) && !je.Schedule? && !je.Callback?
    ensures var e' := Stepped(e, je, maxRetries);
      && RunningOf(e') == RunningOf(e)
      && (if e'.world.deleted then RunningOf(e) == 0 && Held(e.on) == multiset{} else EntryOk(e', maxRetries))
  {
    J.StepIsReachable(e.world, je, maxRetries);
    J.OtherEventsKeepRunners(e.world, je, maxRetries);
    var w' := J.Next(e.world, je, maxRetries);
    if w'.deleted {
      J.DeletedIsQuiet(w', maxRetries);
      assert e.on.Keys == {};
    }
  }

  /** The position of the job with this id, or the number of jobs. */
  function IndexOf<N>(jobs: seq<Entry<N>>, id: string): (i: nat)
    ensures i <= |jobs|
    ensures i < |jobs| ==> jobs[i].ref.id == id
  {
    if jobs == [] || jobs[0].ref.id == id then 0 else 1 + IndexOf(jobs[1..], id)
  }

  /** The task is there to be started. */
  ghost predicate Waits<N>(jobs: seq<Entry<N>>, t: TaskRef) {
    var i := IndexOf(jobs, t.job);
    i < |jobs| && J.Enabled(jobs[i].world, J.Schedule(t.task))
  }

  ghost function OneStarted<N>(jobs: seq<Entry<N>>, t: TaskRef, n: N, maxRetries: nat): seq<Entry<N>>
    requires Waits(jobs, t)
  {
    var i := IndexOf(jobs, t.job);
    jobs[i := StartedOn(jobs[i], t.task, n, maxRetries)]
  }

  /** The jobs after the tasks of a batch started, one after the other. */
  ghost function AllStarted<N>(jobs: seq<Entry<N>>, batch: seq<C.Assignment<N>>, maxRetries: nat): seq<Entry<N>> {
    if batch == [] then jobs else
    var before, a := AllStarted(jobs, batch[..|batch| - 1], maxRetries), batch[|batch| - 1];
    if Waits(before, a.task.ref) then OneStarted(before, a.task.ref, a.node, maxRetries) else before
  }

  lemma {:induction false} SameIndex<N>(a: seq<Entry<N>>, b: seq<Entry<N>>, id: string)
    requires |a| == |b| && forall i :: 0 <= i < |a| ==> a[i].ref == b[i].ref
    ensures IndexOf(a, id) == IndexOf(b, id)
  {
    if a != [] { SameIndex(a[1..], b[1..], id); }
  }

  lemma OneStartedOthersWait<N>(jobs: seq<Entry<N>>, t: TaskRef, n: N, maxRetries: nat, other: TaskRef)
    requires Waits(jobs, t) && Waits(jobs, other) && other != t
    ensures Waits(OneStarted(jobs, t, n, maxRetries), other)
  {
    var jobs' := OneStarted(jobs, t, n, maxRetries);
    SameIndex(jobs, jobs', other.job);
    if other.job == t.job {
      J.OthersStillWait(jobs[IndexOf(jobs, t.job)].world, t.task, other.task, maxRetries);
    }
  }

  lemma JobsOkUpdate<N>(jobs: seq<Entry<N>>, i: nat, e: Entry<N>, maxRetries: nat)
    requires JobsOk(jobs, maxRetries) && i < |jobs| && EntryOk(e, maxRetries) && e.ref == jobs[i].ref
    ensures JobsOk(jobs[i := e], maxRetries)
  {
    var jobs' := jobs[i := e];
    assert forall k :: 0 <= k < |jobs| ==> EntryOk(jobs'[k], maxRetries) && jobs'[k].ref == jobs[k].ref;
  }

  /** One entry changed, keeping its job. */
  lemma EntryUpdate<N>(jobs: seq<Entry<N>>, i: nat, e: Entry<N>, maxRetries: nat)
    requires JobsOk(jobs, maxRetries) && i < |jobs| && EntryOk(e, maxRetries) && e.ref == jobs[i].ref
    ensures JobsOk(jobs[i := e], maxRetries)
    ensures TasksRunning(jobs[i := e]) == TasksRunning(jobs) - RunningOf(jobs[i]) + RunningOf(e)
    ensures var rest := HeldBy(Without(jobs, i));
      HeldBy(jobs) == rest + Held(jobs[i].on) && HeldBy(jobs[i := e]) == rest + Held(e.on)
  {
    JobsOkUpdate(jobs, i, e, maxRetries);
    EntryTotals(jobs, i, e);
  }

  lemma EntryTotals<N>(jobs: seq<Entry<N>>, i: nat, e: Entry<N>)
    requires i < |jobs|
    ensures TasksRunning(jobs[i := e]) == TasksRunning(jobs) - RunningOf(jobs[i]) + RunningOf(e)
    ensures var rest := HeldBy(Without(jobs, i));
      HeldBy(jobs) == rest + Held(jobs[i].on) && HeldBy(jobs[i := e]) == rest + Held(e.on)
  {
    SumUpdate(jobs, RunningOf, i, e);
    HeldSplit(jobs, i);
    HeldUpdate(jobs, i, e);
  }

  lemma OneStartedOk<N>(jobs: seq<Entry<N>>, pending: multiset<N>, k: int, t: TaskRef, n: N, maxRetries: nat)
    requires Accounted(jobs, pending, k, maxRetries) && Waits(jobs, t)
    ensures Accounted(OneStarted(jobs, t, n, maxRetries), pending + multiset{n}, k + 1, maxRetries)
  {
    var i := IndexOf(jobs, t.job);
    var e := StartedOn(jobs[i], t.task, n, maxRetries);
    StartKeepsEntry(jobs[i], t.task, n, maxRetries);
    EntryStarted(jobs, pending, k, i, e, n, maxRetries);
  }

  lemma EntryStarted<N>(jobs: seq<Entry<N>>, pending: multiset<N>, k: int, i: nat, e: Entry<N>, n: N, maxRetries: nat)
    requires Accounted(jobs, pending, k, maxRetries) && i < |jobs| && EntryOk(e, maxRetries) && e.ref == jobs[i].ref
    requires RunningOf(e) == RunningOf(jobs[i]) + 1 && Held(e.on) == Held(jobs[i].on) + multiset{n}
    ensures Accounted(jobs[i := e], pending + multiset{n}, k + 1, maxRetries)
  {
    EntryUpdate(jobs, i, e, maxRetries);
  }

  /** The tasks of a batch are there to be started, and differ. */
  ghost predicate Startable<N>(jobs: seq<Entry<N>>, batch: seq<C.Assignment<N>>) {
    && (forall i :: 0 <= i < |batch| ==> Waits(jobs, batch[i].task.ref))
    && (forall i, j :: 0 <= i < j < |batch| ==> batch[i].task.ref != batch[j].task.ref)
  }

  lemma {:induction false} StillWaits<N>(jobs: seq<Entry<N>>, batch: seq<C.Assignment<N>>, maxRetries: nat, t: TaskRef)
    requires Startable(jobs, batch) && Waits(jobs, t) && forall i :: 0 <= i < |batch| ==> batch[i].task.ref != t
    ensures Waits(AllStarted(jobs, batch, maxRetries), t)
  {
    if batch != [] {
      var init, a := batch[..|batch| - 1], batch[|batch| - 1];
      StillWaits(jobs, init, maxRetries, t);
      StillWaits(jobs, init, maxRetries, a.task.ref);
      OneStartedOthersWait(AllStarted(jobs, init, maxRetries), a.task.ref, a.node, maxRetries, t);
    }
  }

  lemma LastStarts<N>(jobs: seq<Entry<N>>, pending: multiset<N>, batch: seq<C.Assignment<N>>, maxRetries: nat)
    requires Startable(jobs, batch) && batch != []
    ensures var init, a := batch[..|batch| - 1], batch[|batch| - 1];
      var before := AllStarted(jobs, init, maxRetries);
      && Startable(jobs, init) && Waits(before, a.task.ref)
      && AllStarted(jobs, batch, maxRetries) == OneStarted(before, a.task.ref, a.node, maxRetries)
      && pending + C.Nodes(batch) == pending + C.Nodes(init) + multiset{a.node}
  {
    var init, a := batch[..|batch| - 1], batch[|batch| - 1];
    StillWaits(jobs, init, maxRetries, a.task.ref);
  }

  /** A batch starts every one of its tasks, on a node of its own. */
  lemma {:induction false} AllStartedOk<N>(jobs: seq<Entry<N>>, pending: multiset<N>, k: int,
                                           batch: seq<C.Assignment<N>>, maxRetries: nat)
    requires Accounted(jobs, pending, k, maxRetries) && Startable(jobs, batch)
    ensures Accounted(AllStarted(jobs, batch, maxRetries), pending + C.Nodes(batch), k + |batch|, maxRetries)
  {
    if batch == [] {
      assert pending + C.Nodes(batch) == pending;
    } else {
      var init, a := batch[..|batch| - 1], batch[|batch| - 1];
      LastStarts(jobs, pending, batch, maxRetries);
      AllStartedOk(jobs, pending, k, init, maxRetries);
      var before := AllStarted(jobs, init, maxRetries);
      OneStartedOk(before, pending + C.Nodes(init), k + |init|, a.task.ref, a.node, maxRetries);
    }
  }

  lemma {:induction false} AllStartedRefs<N>(jobs: seq<Entry<N>>, batch: seq<C.Assignment<N>>, maxRetries: nat)
    ensures Refs(AllStarted(jobs, batch, maxRetries)) == Refs(jobs)
  {
    if batch != [] { AllStartedRefs(jobs, batch[..|batch| - 1], maxRetries); }
  }

  // -------------------------------------------------------------------------------------------
  // The requestor map.

  function Listed(table: map<string, seq<T.JobRef>>, r: string): seq<T.JobRef> { if r in table then table[r] else [] }

  /** The job under the priority its requestor's earlier jobs give it. */
  function Prioritised(table: map<string, seq<T.JobRef>>, j: T.JobRef): T.JobRef {
    j.(priority := T.PriorityFor(Listed(table, j.requestor), j))
  }

  function TableWith(table: map<string, seq<T.JobRef>>, j: T.JobRef): map<string, seq<T.JobRef>> {
    table[j.requestor := Listed(table, j.requestor) + [j]]
  }

  /** A requestor with no job left disappears. */
  function TableWithout(table: map<string, seq<T.JobRef>>, j: T.JobRef): map<string, seq<T.JobRef>> {
    var mine := T.WithoutJob(Listed(table, j.requestor), j.id);
    if mine == [] then table - {j.requestor} else table[j.requestor := mine]
  }

  lemma SameRefsTabled<N>(jobs: seq<Entry<N>>, jobs': seq<Entry<N>>, table: map<string, seq<T.JobRef>>)
    requires Tabled(jobs, table) && Refs(jobs') == Refs(jobs)
    ensures Tabled(jobs', table)
  {
    forall i | 0 <= i < |jobs'| ensures jobs'[i].ref.priority <= T.MAX_PRIORITY {
      assert Refs(jobs')[i] == Refs(jobs)[i];
    }
  }

  lemma PriorityBounded<N>(jobs: seq<Entry<N>>, table: map<string, seq<T.JobRef>>, j: T.JobRef)
    requires Tabled(jobs, table) && j.priority <= T.MAX_PRIORITY
    ensures Prioritised(table, j).priority <= T.MAX_PRIORITY
  {
    var prior := Listed(table, j.requestor);
    T.OfRequestorMembers(Refs(jobs), j.requestor);
    forall k | 0 <= k < |prior| ensures prior[k].priority <= T.MAX_PRIORITY {
      assert prior[k] in T.OfRequestor(Refs(jobs), j.requestor);
      var i :| 0 <= i < |jobs| && Refs(jobs)[i] == prior[k];
    }
    T.AdjustedBounded(prior, j);
  }

  lemma AddedIsTabled<N>(jobs: seq<Entry<N>>, table: map<string, seq<T.JobRef>>, e: Entry<N>)
    requires Tabled(jobs, table) && e.ref.priority <= T.MAX_PRIORITY
    ensures Tabled(jobs + [e], TableWith(table, e.ref))
  {
    assert Listed(table, e.ref.requestor) == T.OfRequestor(Refs(jobs), e.ref.requestor);
    T.IndexedAppend(Refs(jobs), table, e.ref);
    assert Refs(jobs + [e]) == Refs(jobs) + [e.ref];
  }

  lemma RefsWithout<N>(jobs: seq<Entry<N>>, i: nat)
    requires i < |jobs| && T.UniqueJobs(Refs(jobs))
    ensures Refs(Without(jobs, i)) == T.WithoutJob(Refs(jobs), jobs[i].ref.id)
  {
    T.WithoutAt(Refs(jobs), jobs[i].ref.id, i);
    assert Refs(Without(jobs, i)) == Refs(jobs)[..i] + Refs(jobs)[i + 1..];
  }

  lemma RemovedIsTabled<N>(jobs: seq<Entry<N>>, table: map<string, seq<T.JobRef>>, i: nat)
    requires Tabled(jobs, table) && i < |jobs| && T.UniqueJobs(Refs(jobs))
    ensures Tabled(Without(jobs, i), TableWithout(table, jobs[i].ref))
  {
    var j := jobs[i].ref;
    assert Refs(jobs)[i] == j;
    assert Listed(table, j.requestor) == T.OfRequestor(Refs(jobs), j.requestor);
    T.IndexedWithout(Refs(jobs), table, j.id, j.requestor);
    RefsWithout(jobs, i);
  }

  // -------------------------------------------------------------------------------------------
  // Steps of the scheduler.

  datatype Event<N> =
    | AddJob(entry: Entry<N>)
    | JobStep(i: nat, event: J.Event)
    | StartBatch(order: seq<string>, tasks: seq<C.TaskDef>, batch: seq<C.Assignment<N>>)
    | TaskDone(i: nat, r: nat, flaky: bool, now: nat)
    | NodeStep(change: R.Event<N>)

  /** The node of a task runner was reaped and a new one with the same id took its place. */
  ghost predicate NodeReplaced<N>(c: C.State<N>, n: N) {
    n in c.info && c.info[n].id in c.nodes && c.nodes[c.info[n].id] != n
  }

  ghost predicate Enabled<N>(s: Sys<N>, e: Event<N>) {
    match e
    case AddJob(entry) =>
      && J.Init(entry.world) && entry.on == map[] && entry.ref.priority <= T.MAX_PRIORITY
      && forall i :: 0 <= i < |s.jobs| ==> s.jobs[i].ref.id != entry.ref.id
    case JobStep(i, je) => i < |s.jobs| && J.Enabled(s.jobs[i].world, je) && !je.Schedule? && !je.Callback?
    case StartBatch(order, tasks, batch) => C.AssignedInTurn(s.cluster, order, tasks, batch) && Startable(s.jobs, batch)
    case TaskDone(i, r, _, now) =>
      i < |s.jobs| && r in s.jobs[i].on && now > 0 &&
      J.Enabled(s.jobs[i].world, J.Callback(r, NodeReplaced(s.cluster, s.jobs[i].on[r])))
    case NodeStep(ce) => R.Enabled(s.cluster, ce) && R.Defined(s.cluster, ce) && !ce.Starts? && !ce.Fires?
  }

  ghost function Next<N>(s: Sys<N>, p: Params, e: Event<N>): Sys<N>
    requires Enabled(s, e)
  {
    match e
    case AddJob(entry) =>
      var ref := Prioritised(s.table, entry.ref);
      s.(jobs := s.jobs + [entry.(ref := ref)], table := TableWith(s.table, ref))
    case JobStep(i, je) =>
      var entry := Stepped(s.jobs[i], je, p.maxRetries);
      if entry.world.deleted then s.(jobs := Without(s.jobs, i), table := TableWithout(s.table, s.jobs[i].ref))
      else s.(jobs := s.jobs[i := entry])
    case StartBatch(order, tasks, batch) =>
      s.(jobs := AllStarted(s.jobs, batch, p.maxRetries), cluster := R.Started(s.cluster, batch))
    case TaskDone(i, r, flaky, now) =>
      var n := s.jobs[i].on[r];
      var fires := R.Fires(n, flaky, now);
      s.(jobs := s.jobs[i := CalledBack(s.jobs[i], r, NodeReplaced(s.cluster, n), p.maxRetries)],
         cluster := if R.Defined(s.cluster, fires) then R.Next(s.cluster, p.cfg, fires) else s.cluster)
    case NodeStep(ce) => s.(cluster := R.Next(s.cluster, p.cfg, ce))
  }

  lemma JobsOkRemove<N>(jobs: seq<Entry<N>>, i: nat, maxRetries: nat)
    requires JobsOk(jobs, maxRetries) && i < |jobs|
    ensures JobsOk(Without(jobs, i), maxRetries)
  {
    var jobs' := Without(jobs, i);
    assert forall q :: 0 <= q < |jobs'| ==> jobs'[q] == jobs[if q < i then q else q + 1];
  }

  lemma JobsOkAppend<N>(jobs: seq<Entry<N>>, e: Entry<N>, maxRetries: nat)
    requires JobsOk(jobs, maxRetries) && EntryOk(e, maxRetries)
    requires forall i :: 0 <= i < |jobs| ==> jobs[i].ref.id != e.ref.id
    ensures JobsOk(jobs + [e], maxRetries)
  {
  }

  lemma OneAddedOk<N>(jobs: seq<Entry<N>>, pending: multiset<N>, k: int, e: Entry<N>, maxRetries: nat)
    requires Accounted(jobs, pending, k, maxRetries) && EntryOk(e, maxRetries) && e.on == map[] && RunningOf(e) == 0
    requires forall i :: 0 <= i < |jobs| ==> jobs[i].ref.id != e.ref.id
    ensures Accounted(jobs + [e], pending, k, maxRetries)
  {
    JobsOkAppend(jobs, e, maxRetries);
    SumAppend(jobs, RunningOf, e);
    HeldAppend(jobs, e);
  }

  lemma NewIsQuiet(w: J.World)
    requires J.Init(w)
    ensures w.job.running == 0 && w.runners == map[] && !w.deleted
  {
    NoneInProgress(w.job.tasks);
  }

  lemma {:induction false} NoneInProgress(tasks: seq<Task>)
    requires forall i :: 0 <= i < |tasks| ==> tasks[i].status != InProgress
    ensures Count(tasks, InProgress) == 0
  {
    if tasks != [] { NoneInProgress(tasks[1..]); }
  }

  lemma OneRemovedOk<N>(jobs: seq<Entry<N>>, pending: multiset<N>, k: int, i: nat, maxRetries: nat)
    requires Accounted(jobs, pending, k, maxRetries) && i < |jobs|
    requires RunningOf(jobs[i]) == 0 && Held(jobs[i].on) == multiset{}
    ensures Accounted(Without(jobs, i), pending, k, maxRetries)
  {
    JobsOkRemove(jobs, i, maxRetries);
    SumRemove(jobs, RunningOf, i);
    HeldSplit(jobs, i);
  }

  lemma OneSteppedOk<N>(jobs: seq<Entry<N>>, pending: multiset<N>, k: int, i: nat, e: Entry<N>, maxRetries: nat)
    requires Accounted(jobs, pending, k, maxRetries) && i < |jobs| && EntryOk(e, maxRetries)
    requires e.ref == jobs[i].ref && e.on == jobs[i].on && RunningOf(e) == RunningOf(jobs[i])
    ensures Accounted(jobs[i := e], pending, k, maxRetries)
  {
    EntryUpdate(jobs, i, e, maxRetries);
  }

  lemma OneDoneOk<N>(jobs: seq<Entry<N>>, pending: multiset<N>, k: int, i: nat, r: nat, preempted: bool,
                     maxRetries: nat)
    requires Accounted(jobs, pending, k, maxRetries) && i < |jobs| && r in jobs[i].on
    requires J.Enabled(jobs[i].world, J.Callback(r, preempted))
    ensures var jobs' := jobs[i := CalledBack(jobs[i], r, preempted, maxRetries)];
      Accounted(jobs', pending - multiset{jobs[i].on[r]}, k - 1, maxRetries)
  {
    CallbackKeepsEntry(jobs[i], r, preempted, maxRetries);
    var e := CalledBack(jobs[i], r, preempted, maxRetries);
    EntryUpdate(jobs, i, e, maxRetries);
  }

  lemma AddJobKeepsInv<N(!new)>(s: Sys<N>, p: Params, ids: set<string>, entry: Entry<N>)
    requires Inv(s, p, ids) && Enabled(s, AddJob(entry))
    ensures Inv(Next(s, p, AddJob(entry)), p, ids)
  {
    J.InitIsReachable(entry.world, p.maxRetries);
    NewIsQuiet(entry.world);
    PriorityBounded(s.jobs, s.table, entry.ref);
    var e := entry.(ref := Prioritised(s.table, entry.ref));
    OneAddedOk(s.jobs, s.cluster.pending, s.cluster.numRunning, e, p.maxRetries);
    AddedIsTabled(s.jobs, s.table, e);
  }

  lemma DeletedOk<N(!new)>(s: Sys<N>, p: Params, ids: set<string>, i: nat)
    requires Inv(s, p, ids) && i < |s.jobs| && RunningOf(s.jobs[i]) == 0 && Held(s.jobs[i].on) == multiset{}
    ensures Inv(s.(jobs := Without(s.jobs, i), table := TableWithout(s.table, s.jobs[i].ref)), p, ids)
  {
    OneRemovedOk(s.jobs, s.cluster.pending, s.cluster.numRunning, i, p.maxRetries);
    RemovedIsTabled(s.jobs, s.table, i);
  }

  lemma ChangedOk<N(!new)>(s: Sys<N>, p: Params, ids: set<string>, i: nat, e: Entry<N>)
    requires Inv(s, p, ids) && i < |s.jobs| && EntryOk(e, p.maxRetries)
    requires e.ref == s.jobs[i].ref && e.on == s.jobs[i].on && RunningOf(e) == RunningOf(s.jobs[i])
    ensures Inv(s.(jobs := s.jobs[i := e]), p, ids)
  {
    OneSteppedOk(s.jobs, s.cluster.pending, s.cluster.numRunning, i, e, p.maxRetries);
    EntryTabled(s.jobs, s.table, i, e);
  }

  lemma JobStepKeepsInv<N(!new)>(s: Sys<N>, p: Params, ids: set<string>, i: nat, je: J.Event)
    requires Inv(s, p, ids) && Enabled(s, JobStep(i, je))
    ensures Inv(Next(s, p, JobStep(i, je)), p, ids)
  {
    OtherKeepsEntry(s.jobs[i], je, p.maxRetries);
    var entry := Stepped(s.jobs[i], je, p.maxRetries);
    if entry.world.deleted {
      DeletedOk(s, p, ids, i);
    } else {
      ChangedOk(s, p, ids, i, entry);
    }
  }

  lemma BatchStartedOk<N(!new)>(s: Sys<N>, p: Params, ids: set<string>, batch: seq<C.Assignment<N>>, c: C.State<N>)
    requires Inv(s, p, ids) && Startable(s.jobs, batch) && R.Reachable(p.cfg, c, ids)
    requires c.pending == s.cluster.pending + C.Nodes(batch) && c.numRunning == s.cluster.numRunning + |batch|
    ensures Inv(s.(jobs := AllStarted(s.jobs, batch, p.maxRetries), cluster := c), p, ids)
  {
    AllStartedOk(s.jobs, s.cluster.pending, s.cluster.numRunning, batch, p.maxRetries);
    AllStartedRefs(s.jobs, batch, p.maxRetries);
    SameRefsTabled(s.jobs, AllStarted(s.jobs, batch, p.maxRetries), s.table);
  }

  lemma StartBatchKeepsInv<N(!new)>(s: Sys<N>, p: Params, ids: set<string>, order: seq<string>, tasks: seq<C.TaskDef>,
                                    batch: seq<C.Assignment<N>>)
    requires Inv(s, p, ids) && Enabled(s, StartBatch(order, tasks, batch))
    ensures Inv(Next(s, p, StartBatch(order, tasks, batch)), p, ids)
  {
    ClusterInv(p, s.cluster, ids);
    R.StartsCounts(s.cluster, order, tasks, batch);
    ClusterSteps(p, s.cluster, ids, R.Starts(order, tasks, batch));
    BatchStartedOk(s, p, ids, batch, R.Started(s.cluster, batch));
  }

  lemma ClusterInv<N(!new)>(p: Params, c: C.State<N>, ids: set<string>)
    requires R.Reachable(p.cfg, c, ids)
    ensures C.Inv(c, false)
  {
    R.ReachableInv(p.cfg, c, ids);
    R.WeakerInv(c, C.Apart(ids));
  }

  lemma ClusterSteps<N(!new)>(p: Params, c: C.State<N>, ids: set<string>, ce: R.Event<N>)
    requires R.Reachable(p.cfg, c, ids) && R.Enabled(c, ce) && !ce.Joins?
    ensures R.Defined(c, ce) && R.Reachable(p.cfg, R.Next(c, p.cfg, ce), ids)
  {
    R.StepIsReachable(p.cfg, c, ce, ids);
    assert ids + R.NewIds(ce) == ids;
  }

  lemma CalledBackOk<N(!new)>(s: Sys<N>, p: Params, ids: set<string>, i: nat, r: nat, preempted: bool, c: C.State<N>)
    requires Inv(s, p, ids) && i < |s.jobs| && r in s.jobs[i].on && J.Enabled(s.jobs[i].world, J.Callback(r, preempted))
    requires R.Reachable(p.cfg, c, ids) && c.numRunning == s.cluster.numRunning - 1
    requires c.pending == s.cluster.pending - multiset{s.jobs[i].on[r]}
    ensures var e := CalledBack(s.jobs[i], r, preempted, p.maxRetries);
      Inv(s.(jobs := s.jobs[i := e], cluster := c), p, ids)
  {
    OneDoneOk(s.jobs, s.cluster.pending, s.cluster.numRunning, i, r, preempted, p.maxRetries);
    EntryTabled(s.jobs, s.table, i, CalledBack(s.jobs[i], r, preempted, p.maxRetries));
  }

  lemma TaskDoneKeepsInv<N(!new)>(s: Sys<N>, p: Params, ids: set<string>, i: nat, r: nat, flaky: bool, now: nat)
    requires Inv(s, p, ids) && Enabled(s, TaskDone(i, r, flaky, now))
    ensures Inv(Next(s, p, TaskDone(i, r, flaky, now)), p, ids)
  {
    var n := s.jobs[i].on[r];
    JobsHave(s.jobs, i, r);
    CallbackFires(p, s.cluster, ids, n, flaky, now);
    CalledBackOk(s, p, ids, i, r, NodeReplaced(s.cluster, n), R.Next(s.cluster, p.cfg, R.Fires(n, flaky, now)));
  }

  lemma CallbackFires<N(!new)>(p: Params, c: C.State<N>, ids: set<string>, n: N, flaky: bool, now: nat)
    requires R.Reachable(p.cfg, c, ids) && n in c.pending && now > 0
    ensures var fires := R.Fires(n, flaky, now);
      && R.Defined(c, fires) && var c' := R.Next(c, p.cfg, fires);
      R.Reachable(p.cfg, c', ids) && c'.pending == c.pending - multiset{n} && c'.numRunning == c.numRunning - 1
  {
    ClusterSteps(p, c, ids, R.Fires(n, flaky, now));
    R.FiresCounts(c, p.cfg, n, flaky, now);
  }

  lemma EntryTabled<N>(jobs: seq<Entry<N>>, table: map<string, seq<T.JobRef>>, i: nat, e: Entry<N>)
    requires Tabled(jobs, table) && i < |jobs| && e.ref == jobs[i].ref
    ensures Tabled(jobs[i := e], table)
  {
    SameRefsTabled(jobs, jobs[i := e], table);
  }

  /** The ids of the workers an event brings in. */
  ghost function NewIds<N>(e: Event<N>): set<string> { if e.NodeStep? then R.NewIds(e.change) else {} }

  lemma NextKeepsInv<N(!new)>(s: Sys<N>, p: Params, ids: set<string>, e: Event<N>)
    requires Inv(s, p, ids) && Enabled(s, e)
    ensures Inv(Next(s, p, e), p, ids + NewIds(e))
  {
    assert !e.NodeStep? ==> ids + NewIds(e) == ids;
    match e
    case AddJob(entry) => AddJobKeepsInv(s, p, ids, entry);
    case JobStep(i, je) => JobStepKeepsInv(s, p, ids, i, je);
    case StartBatch(order, tasks, batch) => StartBatchKeepsInv(s, p, ids, order, tasks, batch);
    case TaskDone(i, r, flaky, now) => TaskDoneKeepsInv(s, p, ids, i, r, flaky, now);
    case NodeStep(ce) =>
      R.StepIsReachable(p.cfg, s.cluster, ce, ids);
      R.ClusterEventsKeepPending(s.cluster, p.cfg, ce);
  }

  // -------------------------------------------------------------------------------------------
  // Whole runs.

  /** The state after some events; one that cannot happen is skipped. */
  ghost function Run<N>(p: Params, events: seq<Event<N>>): Sys<N> {
    if events == [] then Sys([], map[], R.Start()) else
    var before, e := Run(p, events[..|events| - 1]), events[|events| - 1];
    if Enabled(before, e) then Next(before, p, e) else before
  }

  ghost function JoinedIds<N>(events: seq<Event<N>>): set<string> {
    if events == [] then {} else JoinedIds(events[..|events| - 1]) + NewIds(events[|events| - 1])
  }

  lemma StartInv<N(!new)>(p: Params)
    ensures Inv<N>(Sys([], map[], R.Start()), p, {})
  {
    assert R.Run<N>(p.cfg, []) == R.Start() && R.JoinedIds<N>([]) == {};
  }

  lemma MoreIds<N(!new)>(s: Sys<N>, p: Params, ids: set<string>, ids': set<string>)
    requires Inv(s, p, ids) && ids <= ids'
    ensures Inv(s, p, ids')
  {
    var events: seq<R.Event<N>> :| R.JoinedIds(events) <= ids && R.Run(p.cfg, events) == s.cluster;
    assert R.JoinedIds(events) <= ids';
  }

  lemma {:induction false} RunKeepsInv<N(!new)>(p: Params, events: seq<Event<N>>)
    ensures Inv(Run(p, events), p, JoinedIds(events))
  {
    if events == [] {
      StartInv<N>(p);
    } else {
      var init := events[..|events| - 1];
      RunKeepsInv(p, init);
      var before, e := Run(p, init), events[|events| - 1];
      if Enabled(before, e) {
        NextKeepsInv(before, p, JoinedIds(init), e);
      } else {
        MoreIds(before, p, JoinedIds(init), JoinedIds(events));
      }
    }
  }

  /** The accounts of the jobs and of the cluster. */
  ghost predicate Agree<N>(s: Sys<N>, maxRetries: nat) {
    && (forall i :: 0 <= i < |s.jobs| ==>
          CountersAgree(s.jobs[i].world.job) && J.Reachable(s.jobs[i].world, maxRetries))
    && TasksRunning(s.jobs) == Callbacks(s.jobs) == s.cluster.numRunning && HeldBy(s.jobs) == s.cluster.pending
  }

  /** In every run: each job's counters are its status counts; the cluster has a task outstanding on exactly the nodes
      that task runners of the jobs were started on, as often, and counts as many as running as the jobs do; and with
      the workers' ids apart no two of them share a node. */
  lemma AccountsAgree<N(!new)>(p: Params, events: seq<Event<N>>)
    ensures var s := Run(p, events);
      Agree(s, p.maxRetries) && (C.Apart(JoinedIds(events)) ==> OwnNodes(s.jobs))
  {
    RunKeepsInv(p, events);
    var s := Run(p, events);
    R.ReachableInv(p.cfg, s.cluster, JoinedIds(events));
    forall i | 0 <= i < |s.jobs| ensures CountersAgree(s.jobs[i].world.job) {
      J.ReachableInv(s.jobs[i].world, p.maxRetries);
    }
    HeldCount(s.jobs);
    if C.Apart(JoinedIds(events)) { OneEachOwnNodes(s.jobs); }
  }

  // -------------------------------------------------------------------------------------------
  // What the allocator sees of the jobs.

  function ViewOf<N>(e: Entry<N>): JobView {
    JobView(e.ref.id, e.ref.requestor, e.ref.tag, e.ref.priority, e.world.job)
  }

  function Views<N>(jobs: seq<Entry<N>>): seq<JobView> { seq(|jobs|, i requires 0 <= i < |jobs| => ViewOf(jobs[i])) }

  lemma ViewsAreWellFormed<N>(jobs: seq<Entry<N>>, maxRetries: nat)
    requires JobsOk(jobs, maxRetries) && forall i :: 0 <= i < |jobs| ==> jobs[i].ref.priority <= T.MAX_PRIORITY
    ensures WellFormedJobs(Views(jobs))
  {
    forall i | 0 <= i < |jobs| ensures UniqueIds(jobs[i].world.job.tasks) && CountersAgree(jobs[i].world.job) {
      J.ReachableInv(jobs[i].world, maxRetries);
    }
  }

  lemma {:induction false} IndexAt<N>(jobs: seq<Entry<N>>, i: nat)
    requires i < |jobs| && forall k, l :: 0 <= k < l < |jobs| ==> jobs[k].ref.id != jobs[l].ref.id
    ensures IndexOf(jobs, jobs[i].ref.id) == i
  {
    if i > 0 { IndexAt(jobs[1..], i - 1); }
  }

  lemma WaitingIsNotStarted(v: JobView, t: TaskRef)
    requires UniqueIds(v.job.tasks) && t in Waiting(v)
    ensures var i := Find(v.job.tasks, t.task); i < |v.job.tasks| && v.job.tasks[i].status == NotStarted
  {
    UnscheduledCount(v.job.tasks);
    var u :| u in Unscheduled(v.job.tasks) && u.id == t.task;
    var k :| 0 <= k < |v.job.tasks| && v.job.tasks[k] == u;
    FindUnique(v.job.tasks, k);
  }

  lemma WaitingIsEnabled<N>(e: Entry<N>, t: TaskRef, maxRetries: nat)
    requires EntryOk(e, maxRetries) && J.LoopFree(e.world) && t in Waiting(ViewOf(e))
    ensures J.Enabled(e.world, J.Schedule(t.task))
  {
    TasksAreUnique(e.world, maxRetries);
    WaitingIsNotStarted(ViewOf(e), t);
  }

  /** A waiting task of a job that is not just being killed can be started. */
  lemma WaitingCanStart<N>(jobs: seq<Entry<N>>, t: TaskRef, maxRetries: nat)
    requires JobsOk(jobs, maxRetries) && IsWaiting(Views(jobs), t)
    requires forall i :: 0 <= i < |jobs| ==> J.LoopFree(jobs[i].world)
    ensures Waits(jobs, t)
  {
    var v :| v in Views(jobs) && v.id == t.job && t in Waiting(v);
    var i := ViewAt(jobs, v);
    WaitsAt(jobs, t, maxRetries, i);
  }

  lemma ViewAt<N>(jobs: seq<Entry<N>>, v: JobView) returns (i: nat)
    requires v in Views(jobs)
    ensures i < |jobs| && ViewOf(jobs[i]) == v
  {
    i :| 0 <= i < |Views(jobs)| && Views(jobs)[i] == v;
  }

  lemma WaitsAt<N>(jobs: seq<Entry<N>>, t: TaskRef, maxRetries: nat, i: nat)
    requires i < |jobs| && EntryOk(jobs[i], maxRetries) && J.LoopFree(jobs[i].world)
    requires forall k, l :: 0 <= k < l < |jobs| ==> jobs[k].ref.id != jobs[l].ref.id
    requires jobs[i].ref.id == t.job && t in Waiting(ViewOf(jobs[i]))
    ensures Waits(jobs, t)
  {
    IndexAt(jobs, i);
    WaitingIsEnabled(jobs[i], t, maxRetries);
  }

  lemma TasksAreUnique(w: J.World, maxRetries: nat)
    requires J.Reachable(w, maxRetries)
    ensures UniqueIds(w.job.tasks)
  {
    J.ReachableInv(w, maxRetries);
  }
}
