/** The waiting tasks of the jobs, and how getTaskAssignments gathers them by requestor and tag. */
module TaskGroups {
  import opened JobSpec
  import opened Sequences

  datatype TaskRef = TaskRef(job: string, task: string)

  datatype JobView = JobView(id: string, requestor: string, tag: string, priority: nat, job: Job)

  const NODE_SCALE_ADJUSTMENT: seq<real> := [0.15, 0.3, 0.55]

  function Min(a: int, b: int): int { if a < b then a else b }

  function Max(a: int, b: int): int { if a < b then b else a }

  function Ceil(x: real): (n: int)
    ensures n as real >= x && n as real - 1.0 < x
  {
    if x == x.Floor as real then x.Floor else x.Floor + 1
  }

  // -------------------------------------------------------------------------------------------
  // The waiting tasks of a job, and of the jobs that share a requestor and a tag.

  function Refs(id: string, tasks: seq<Task>): seq<TaskRef> {
    seq(|tasks|, i requires 0 <= i < |tasks| => TaskRef(id, tasks[i].id))
  }

  function Waiting(v: JobView): seq<TaskRef> { Refs(v.id, Unscheduled(v.job.tasks)) }

  ghost predicate IsWaiting(jobs: seq<JobView>, r: TaskRef) {
    exists v :: v in jobs && v.id == r.job && r in Waiting(v)
  }

  ghost predicate WellFormedJobs(jobs: seq<JobView>) {
    && (forall i, j :: 0 <= i < j < |jobs| ==> jobs[i].id != jobs[j].id)
    && (forall v <- jobs :: UniqueIds(v.job.tasks) && CountersAgree(v.job) && v.priority <= 2)
  }

  /** The waiting tasks of the jobs with this tag, later jobs first. */
  function Group(jobs: seq<JobView>, tag: string): seq<TaskRef> {
    if jobs == [] then [] else
    var v := jobs[|jobs| - 1];
    (if v.tag == tag then Waiting(v) else []) + Group(jobs[..|jobs| - 1], tag)
  }

  function GroupTasks(jobs: seq<JobView>, tag: string): nat {
    if jobs == [] then 0 else
    var v := jobs[|jobs| - 1];
    (if v.tag == tag then |v.job.tasks| else 0) + GroupTasks(jobs[..|jobs| - 1], tag)
  }

  function GroupRunning(jobs: seq<JobView>, tag: string): int {
    if jobs == [] then 0 else
    var v := jobs[|jobs| - 1];
    (if v.tag == tag then v.job.running else 0) + GroupRunning(jobs[..|jobs| - 1], tag)
  }

  lemma {:induction false} UnscheduledUnique(tasks: seq<Task>)
    requires UniqueIds(tasks)
    ensures UniqueIds(Unscheduled(tasks))
  {
    if tasks != [] {
      UnscheduledUnique(tasks[1..]);
      UnscheduledCount(tasks[1..]);
      forall t | t in Unscheduled(tasks[1..]) ensures t.id != tasks[0].id {
        var k :| 0 <= k < |tasks[1..]| && tasks[1..][k] == t;
        assert tasks[k + 1].id == t.id;
      }
    }
  }

  /** A job's waiting tasks are its unscheduled ones, under the job's id, in order. */
  lemma WaitingAt(v: JobView, a: seq<Task>, t: Task, b: seq<Task>)
    requires v.job.tasks == a + [t] + b && t.status == NotStarted
    ensures |Unscheduled(a)| < |Waiting(v)| && Waiting(v)[|Unscheduled(a)|] == TaskRef(v.id, t.id)
  {
    UnscheduledConcat(a + [t], b);
    UnscheduledConcat(a, [t]);
    UnscheduledOne(t);
  }

  ghost predicate InGroup(jobs: seq<JobView>, tag: string, r: TaskRef) {
    exists v :: v in jobs && v.tag == tag && v.id == r.job && r in Waiting(v)
  }

  /** A group holds the waiting tasks of its jobs, and nothing else. */
  lemma {:induction false} GroupMembers(jobs: seq<JobView>, tag: string)
    ensures forall r :: r in Group(jobs, tag) <==> InGroup(jobs, tag, r)
  {
    if jobs != [] {
      var init, v := jobs[..|jobs| - 1], jobs[|jobs| - 1];
      assert jobs == init + [v];
      GroupMembers(init, tag);
      assert forall r :: r in Waiting(v) ==> r.job == v.id;
    }
  }

  lemma {:induction false} GroupNoDup(jobs: seq<JobView>, tag: string)
    requires WellFormedJobs(jobs)
    ensures NoDup(Group(jobs, tag))
  {
    if jobs != [] {
      var init, v := jobs[..|jobs| - 1], jobs[|jobs| - 1];
      GroupNoDup(init, tag);
      UnscheduledUnique(v.job.tasks);
      forall r | r in Group(init, tag) ensures r !in Waiting(v) {
        GroupMembers(init, tag);
        var u :| u in init && u.id == r.job;
        var k :| 0 <= k < |init| && init[k] == u;
        assert jobs[k].id != jobs[|jobs| - 1].id;
      }
      NoDupConcat(Waiting(v), Group(init, tag));
    }
  }

  lemma {:induction false} GroupSizes(jobs: seq<JobView>, tag: string)
    requires forall v <- jobs :: CountersAgree(v.job)
    ensures |Group(jobs, tag)| <= GroupTasks(jobs, tag) && GroupRunning(jobs, tag) >= 0
  {
    if jobs != [] {
      var v := jobs[|jobs| - 1];
      GroupSizes(jobs[..|jobs| - 1], tag);
      UnscheduledCount(v.job.tasks);
      CountBounds(v.job.tasks);
    }
  }

  /** `k` is the least number of jobs whose group has `avail` tasks, or all of them. */
  ghost predicate StopsAt(jobs: seq<JobView>, tag: string, avail: nat, k: nat) {
    && k <= |jobs| && (k < |jobs| ==> |Group(jobs[..k], tag)| >= avail)
    && forall j :: 0 <= j < k ==> |Group(jobs[..j], tag)| < avail
  }

  lemma OneMoreJob(jobs: seq<JobView>, tag: string, k: nat)
    requires k < |jobs|
    ensures var v, mine := jobs[k], jobs[k].tag == tag;
      && Group(jobs[..k + 1], tag) == (if mine then Waiting(v) else []) + Group(jobs[..k], tag)
      && GroupTasks(jobs[..k + 1], tag) == (if mine then |v.job.tasks| else 0) + GroupTasks(jobs[..k], tag)
      && GroupRunning(jobs[..k + 1], tag) == (if mine then v.job.running else 0) + GroupRunning(jobs[..k], tag)
  {
    assert jobs[..k + 1][..k] == jobs[..k];
  }

  /** Walks the requestor's jobs in order and stops early once it has a task for every free node. */
  method Gather(jobs: seq<JobView>, tag: string, avail: nat)
    returns (unsched: seq<TaskRef>, numTasks: nat, numRunning: int, k: nat)
    requires avail > 0
    ensures StopsAt(jobs, tag, avail, k) && unsched == Group(jobs[..k], tag)
    ensures numTasks == GroupTasks(jobs[..k], tag) && numRunning == GroupRunning(jobs[..k], tag)
  {
    unsched, numTasks, numRunning, k := [], 0, 0, 0;
    while k < |jobs|
      invariant k <= |jobs|
      invariant unsched == Group(jobs[..k], tag)
      invariant forall j :: 0 <= j <= k ==> |Group(jobs[..j], tag)| < avail
      invariant numTasks == GroupTasks(jobs[..k], tag) && numRunning == GroupRunning(jobs[..k], tag)
    {
      var j := jobs[k];
      OneMoreJob(jobs, tag, k);
      k := k + 1;
      if j.tag == tag {
        numTasks := numTasks + |j.job.tasks|;
        numRunning := numRunning + j.job.running;
        unsched := Waiting(j) + unsched;
        if |unsched| >= avail { return; }
      }
    }
  }
}
