/** Jobs as the scheduler tracks them: one record a task, and counters of completed and running tasks. */
module JobSpec {
  import opened Wrappers

  datatype Status = NotStarted | InProgress | Completed

  /** `runner` names the task runner of the attempt under way; `tried` is NumTimesTried. */
  datatype Task = Task(id: string, status: Status, tried: int, runner: Option<nat>)

  datatype Job = Job(tasks: seq<Task>, completed: int, running: int)

  ghost predicate UniqueIds(tasks: seq<Task>) {
    forall i, j :: 0 <= i < j < |tasks| ==> tasks[i].id != tasks[j].id
  }

  /** The position of the first task with this id, or the length of the list. */
  function Find(tasks: seq<Task>, id: string): (i: nat)
    ensures i <= |tasks|
    ensures i < |tasks| ==> tasks[i].id == id
    ensures forall j :: 0 <= j < i ==> tasks[j].id != id
  {
    if tasks == [] || tasks[0].id == id then 0 else 1 + Find(tasks[1..], id)
  }

  predicate Has(tasks: seq<Task>, id: string) { Find(tasks, id) < |tasks| }

  function Count(tasks: seq<Task>, status: Status): nat {
    if tasks == [] then 0 else (if tasks[0].status == status then 1 else 0) + Count(tasks[1..], status)
  }

  ghost predicate CountersAgree(j: Job) {
    j.completed == Count(j.tasks, Completed) && j.running == Count(j.tasks, InProgress)
  }

  function Started(j: Job, id: string, runner: nat): Job
    requires Has(j.tasks, id)
  {
    var i := Find(j.tasks, id);
    j.(tasks := j.tasks[i := Task(id, InProgress, j.tasks[i].tried + 1, Some(runner))], running := j.running + 1)
  }

  function Finished(j: Job, id: string, wasRunning: bool): Job
    requires Has(j.tasks, id)
  {
    var i := Find(j.tasks, id);
    Job(j.tasks[i := j.tasks[i].(status := Completed, runner := None)],
        j.completed + 1, if wasRunning then j.running - 1 else j.running)
  }

  function Failed(j: Job, id: string, preempted: bool): Job
    requires Has(j.tasks, id)
  {
    var i := Find(j.tasks, id);
    var tried := j.tasks[i].tried;
    j.(tasks := j.tasks[i := Task(id, NotStarted, if preempted then tried - 1 else tried, None)],
       running := j.running - 1)
  }

  function Unscheduled(tasks: seq<Task>): seq<Task> {
    if tasks == [] then [] else
    (if tasks[0].status == NotStarted then [tasks[0]] else []) + Unscheduled(tasks[1..])
  }

  lemma {:induction false} CountUpdate(tasks: seq<Task>, i: nat, t: Task, status: Status)
    requires i < |tasks|
    ensures Count(tasks[i := t], status) ==
            Count(tasks, status) - (if tasks[i].status == status then 1 else 0) + (if t.status == status then 1 else 0)
  {
    if i == 0 {
      assert tasks[0 := t][1..] == tasks[1..];
    } else {
      assert tasks[i := t][1..] == tasks[1..][i - 1 := t];
      CountUpdate(tasks[1..], i - 1, t, status);
    }
  }

  lemma {:induction false} CountBounds(tasks: seq<Task>)
    ensures Count(tasks, NotStarted) + Count(tasks, InProgress) + Count(tasks, Completed) == |tasks|
    ensures forall s :: Count(tasks, s) == |tasks| <==> forall i :: 0 <= i < |tasks| ==> tasks[i].status == s
  {
    if tasks != [] {
      CountBounds(tasks[1..]);
      assert tasks == [tasks[0]] + tasks[1..];
    }
  }

  lemma {:induction false} UnscheduledCount(tasks: seq<Task>)
    ensures |Unscheduled(tasks)| == Count(tasks, NotStarted)
    ensures forall t :: t in Unscheduled(tasks) <==> t in tasks && t.status == NotStarted
  {
    if tasks != [] {
      UnscheduledCount(tasks[1..]);
      assert tasks == [tasks[0]] + tasks[1..];
    }
  }

  /** The unscheduled tasks stay in order. */
  lemma {:induction false} UnscheduledConcat(a: seq<Task>, b: seq<Task>)
    ensures Unscheduled(a + b) == Unscheduled(a) + Unscheduled(b)
  {
    if a == [] {
      assert a + b == b;
    } else {
      assert (a + b)[1..] == a[1..] + b;
      UnscheduledConcat(a[1..], b);
      var first := if a[0].status == NotStarted then [a[0]] else [];
      assert first + (Unscheduled(a[1..]) + Unscheduled(b)) == (first + Unscheduled(a[1..])) + Unscheduled(b);
    }
  }

  lemma UnscheduledOne(t: Task)
    ensures Unscheduled([t]) == if t.status == NotStarted then [t] else []
  {
    assert [t][1..] == [];
  }

  lemma FindUnique(tasks: seq<Task>, i: nat)
    requires UniqueIds(tasks) && i < |tasks|
    ensures Find(tasks, tasks[i].id) == i
  {
  }

  /** The counters follow the statuses through the three updates, each from the status it expects. */
  lemma UpdatesKeepCounters(j: Job, id: string, runner: nat, flag: bool)
    requires CountersAgree(j) && Has(j.tasks, id)
    ensures j.tasks[Find(j.tasks, id)].status == NotStarted ==>
              CountersAgree(Started(j, id, runner)) && CountersAgree(Finished(j, id, false))
    ensures j.tasks[Find(j.tasks, id)].status == InProgress ==>
              CountersAgree(Finished(j, id, true)) && CountersAgree(Failed(j, id, flag))
  {
    var i := Find(j.tasks, id);
    forall t, s ensures Count(j.tasks[i := t], s) == Count(j.tasks, s) -
                        (if j.tasks[i].status == s then 1 else 0) + (if t.status == s then 1 else 0)
    {
      CountUpdate(j.tasks, i, t, s);
    }
  }
}

module JobState {
  import opened Wrappers
  import opened JobSpec
  import SagaSpec
  import Saga

  /** A job as new: a task is done already exactly when its saga has an EndTask for it; the rest start over. */
  ghost predicate BuiltFrom(job: Job, ids: seq<string>, saga: SagaSpec.State) {
    && |job.tasks| == |ids| && UniqueIds(job.tasks) && CountersAgree(job) && job.running == 0
    && forall i :: 0 <= i < |ids| ==>
         job.tasks[i] == Task(ids[i], if saga.FlagsOf(ids[i]).completed then Completed else NotStarted, 0, None)
  }

  /** A job on the way there: the completed tasks of the saga are marked but for those in `todo`. */
  ghost predicate Marked(job: Job, ids: seq<string>, saga: SagaSpec.State, todo: set<string>) {
    && |job.tasks| == |ids| && CountersAgree(job) && job.running == 0
    && forall i :: 0 <= i < |ids| ==>
         job.tasks[i] == Task(ids[i], if saga.FlagsOf(ids[i]).completed && ids[i] !in todo then Completed
                                      else NotStarted, 0, None)
  }

  lemma MarkOne(job: Job, ids: seq<string>, saga: SagaSpec.State, todo: set<string>, t: string)
    requires forall i, j :: 0 <= i < j < |ids| ==> ids[i] != ids[j]
    requires Marked(job, ids, saga, todo) && t in todo && t in saga.taskState
    requires saga.taskState[t].completed ==> t in ids
    ensures var i := Find(job.tasks, t);
      if !saga.taskState[t].completed then Marked(job, ids, saga, todo - {t}) else
        && i < |job.tasks|
        && Marked(Job(job.tasks[i := job.tasks[i].(status := Completed)], job.completed + 1, job.running), ids, saga,
                  todo - {t})
  {
    if saga.taskState[t].completed {
      var k :| 0 <= k < |ids| && ids[k] == t;
      assert job.tasks[k].id == t;
      UpdatesKeepCounters(job, t, 0, false);
    }
  }

  class JobState {
    var tasks: seq<Task>
    var completed: int
    var running: int

    ghost function Value(): Job
      reads this
    {
      Job(tasks, completed, running)
    }

    method GetTask(id: string) returns (i: nat)
      ensures i == Find(tasks, id)
    {
      i := 0;
      while i < |tasks| && tasks[i].id != id
        invariant i <= |tasks| && forall j :: 0 <= j < i ==> tasks[j].id != id
      {
        i := i + 1;
      }
    }

    /** newJobState. */
    constructor (ids: seq<string>, saga: Saga.SagaState)
      requires forall i, j :: 0 <= i < j < |ids| ==> ids[i] != ids[j]
      requires forall t <- saga.taskState :: saga.taskState[t].completed ==> t in ids
      ensures BuiltFrom(Value(), ids, saga.Value())
    {
      tasks, completed, running := [], 0, 0;
      new;
      for k := 0 to |ids|
        invariant |tasks| == k && completed == running == 0
        invariant Count(tasks, Completed) == Count(tasks, InProgress) == 0
        invariant forall i :: 0 <= i < k ==> tasks[i] == Task(ids[i], NotStarted, 0, None)
      {
        CountAppend(tasks, Task(ids[k], NotStarted, 0, None));
        tasks := tasks + [Task(ids[k], NotStarted, 0, None)];
      }
      var todo := saga.taskState.Keys;
      while todo != {}
        invariant todo <= saga.taskState.Keys && Marked(Value(), ids, saga.Value(), todo)
        decreases todo
      {
        var t :| t in todo;
        MarkOne(Value(), ids, saga.Value(), todo, t);
        if saga.taskState[t].completed {
          var i := GetTask(t);
          tasks, completed := tasks[i := tasks[i].(status := Completed)], completed + 1;
        }
        todo := todo - {t};
      }
    }

    method TaskStarted(id: string, runner: nat)
      requires Has(tasks, id)
      modifies this
      ensures Value() == Started(old(Value()), id, runner)
    {
      var i := GetTask(id);
      tasks := tasks[i := tasks[i].(status := InProgress)];
      tasks := tasks[i := tasks[i].(runner := Some(runner))];
      tasks := tasks[i := tasks[i].(tried := tasks[i].tried + 1)];
      running := running + 1;
    }

    method TaskCompleted(id: string, wasRunning: bool)
      requires Has(tasks, id)
      modifies this
      ensures Value() == Finished(old(Value()), id, wasRunning)
    {
      var i := GetTask(id);
      tasks := tasks[i := tasks[i].(status := Completed)];
      tasks := tasks[i := tasks[i].(runner := None)];
      completed := completed + 1;
      if wasRunning { running := running - 1; }
    }

    method ErrorRunningTask(id: string, preempted: bool)
      requires Has(tasks, id)
      modifies this
      ensures Value() == Failed(old(Value()), id, preempted)
    {
      var i := GetTask(id);
      tasks := tasks[i := tasks[i].(status := NotStarted)];
      tasks := tasks[i := tasks[i].(runner := None)];
      running := running - 1;
      if preempted { tasks := tasks[i := tasks[i].(tried := tasks[i].tried - 1)]; }
    }

    method GetUnscheduledTasks() returns (todo: seq<Task>)
      ensures todo == Unscheduled(tasks)
    {
      todo := [];
      for i := 0 to |tasks|
        invariant todo + Unscheduled(tasks[i..]) == Unscheduled(tasks)
      {
        if tasks[i].status == NotStarted { todo := todo + [tasks[i]]; }
        assert tasks[i..][1..] == tasks[i + 1..];
      }
    }

    /** getJobStatus: with agreeing counters, a job counts as done exactly when each task is. */
    method IsCompleted() returns (done: bool)
      requires CountersAgree(Value())
      ensures done <==> forall i :: 0 <= i < |tasks| ==> tasks[i].status == Completed
    {
      CountBounds(tasks);
      done := completed == |tasks|;
    }
  }

  lemma {:induction false} CountAppend(tasks: seq<Task>, t: Task)
    ensures forall s :: Count(tasks + [t], s) == Count(tasks, s) + if t.status == s then 1 else 0
  {
    if tasks == [] {
      assert ([] + [t])[1..] == [];
    } else {
      assert (tasks + [t])[1..] == tasks[1..] + [t];
      CountAppend(tasks[1..], t);
    }
  }
}
