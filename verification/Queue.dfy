/** The worker's queue controller: runs and filer updates take turns, runs one at a time in order. */
module QueueSpec {
  import opened Wrappers
  import opened RunStatuses
  import S = StatusSpec

  /** `watching`: the run whose watcher has not been heard of by the loop; `told`: its done status is stored and
      about to be handed over. `started` is the history of runs started. */
  datatype Queue = Queue(queue: seq<nat>, watching: Option<nat>, told: bool, updating: bool, updateRequested: bool,
                         capacity: int, store: S.Store, started: seq<nat>)

  datatype Event =
    | Enqueue
    | AbortQueued(i: nat, note: string)
    | TryUpdate
    | TryRun
    | UpdateDone
    | Report(st: RunStatus)
    | Finish
    | Erase(id: nat)

  /** A run reports on itself until it is done. The loop tries to start one only while no update is asked for. */
  ghost predicate Enabled(q: Queue, e: Event) {
    match e
    case Enqueue => |q.queue| < q.capacity
    case AbortQueued(i, _) => i < |q.queue| && q.watching != Some(q.queue[i])
    case TryUpdate => true
    case TryRun => !q.updateRequested
    case UpdateDone => q.updating
    case Report(st) => q.watching == Some(st.id) && !q.told
    case Finish => q.told && q.queue != []
    case Erase(_) => true
  }

  predicate Busy(q: Queue) { q.watching.Some? || q.updating }

  function TryRunNow(q: Queue): Queue {
    if !Busy(q) && q.queue != []
    then q.(watching := Some(q.queue[0]), told := false, started := q.started + [q.queue[0]])
    else q
  }

  function TryUpdateNow(q: Queue): Queue {
    if !Busy(q) then q.(updating := true, updateRequested := false) else q.(updateRequested := true)
  }

  function Aborted(id: nat, note: string): RunStatus { RunStatus(id, ABORTED, "", "", note) }

  function Next(q: Queue, e: Event): Queue
    requires Enabled(q, e)
  {
    match e
    case Enqueue => q.(queue := q.queue + [q.store.nextRunId], store := S.NewRun(q.store))
    case AbortQueued(i, note) =>
      q.(queue := q.queue[..i] + q.queue[i + 1..], store := S.Update(q.store, Aborted(q.queue[i], note)))
    case TryUpdate => TryUpdateNow(q)
    case TryRun => TryRunNow(q)
    case UpdateDone => TryRunNow(q.(updating := false))
    case Report(st) => q.(store := S.Update(q.store, st), told := IsDone(st.state))
    case Finish => q.(queue := q.queue[1..], watching := None, told := false)
    case Erase(id) => q.(store := S.Erase(q.store, id))
  }

  // -------------------------------------------------------------------------------------------
  // The invariant.

  ghost predicate Increasing(s: seq<nat>) { forall i, j :: 0 <= i < j < |s| ==> s[i] < s[j] }

  ghost predicate Unfinished(s: S.Store, id: nat) { id in s.runs && !IsDone(s.runs[id].state) }

  /** Every unfinished run stored is queued, and what is queued is unfinished but for a head that just finished. */
  ghost predicate Tracked(q: Queue) {
    && (forall id <- q.store.runs :: Unfinished(q.store, id) ==> id in q.queue)
    && (forall i :: 0 <= i < |q.queue| ==> (Unfinished(q.store, q.queue[i]) <==> !(i == 0 && q.told)))
  }

  /** Runs start in the order of their ids: what is queued is newer than what was started, but for a running head. */
  ghost predicate Ordered(q: Queue) {
    && Increasing(q.queue) && Increasing(q.started)
    && (forall i :: 0 <= i < |q.queue| ==> q.queue[i] < q.store.nextRunId)
    && (forall k :: 0 <= k < |q.started| ==> q.started[k] < q.store.nextRunId)
    && (forall i, k :: 0 <= i < |q.queue| && 0 <= k < |q.started| ==>
          q.started[k] < q.queue[i] || (i == 0 && q.watching == Some(q.queue[0]) && q.started[k] == q.queue[0]))
  }

  ghost predicate Alone(q: Queue) {
    && !(q.watching.Some? && q.updating) && (q.told ==> q.watching.Some?)
    && (q.watching.Some? ==> q.queue != [] && q.queue[0] == q.watching.value)
  }

  /** A bounded history goes with a queue of one. */
  ghost predicate Inv(q: Queue) {
    && S.RunsOk(q.store) && Tracked(q) && Ordered(q) && Alone(q) && (q.store.capacity != 0 ==> q.capacity <= 1)
  }

  /** The runs that an eviction drops from the history are finished. */
  lemma EvictedIsFinished(q: Queue, id: nat)
    requires Inv(q) && Enabled(q, Enqueue) && id in q.store.runs && id !in S.NewRun(q.store).runs
    ensures IsDone(q.store.runs[id].state)
  {
  }

  lemma EnqueueKeepsInv(q: Queue)
    requires Inv(q) && Enabled(q, Enqueue)
    ensures Inv(Next(q, Enqueue))
  {
    EnqueueKeepsRuns(q.store);
    EnqueueKeepsOrdered(q);
    EnqueueKeepsTracked(q);
  }

  lemma EnqueueKeepsRuns(s: S.Store)
    requires S.RunsOk(s)
    ensures S.RunsOk(S.NewRun(s)) && S.NewRun(s).nextRunId == s.nextRunId + 1 && S.NewRun(s).capacity == s.capacity
  {
  }

  lemma EnqueueKeepsOrdered(q: Queue)
    requires Ordered(q) && Alone(q) && Enabled(q, Enqueue)
    ensures Ordered(Next(q, Enqueue)) && Alone(Next(q, Enqueue))
  {
    var q' := Next(q, Enqueue);
    var n := |q.queue|;
    assert q'.queue[n] == q.store.nextRunId && forall i :: 0 <= i < n ==> q'.queue[i] == q.queue[i];
  }

  lemma EnqueueKeepsTracked(q: Queue)
    requires S.RunsOk(q.store) && Tracked(q) && Enabled(q, Enqueue) && (q.store.capacity != 0 ==> q.capacity <= 1)
    requires q.told ==> q.queue != []
    requires forall i :: 0 <= i < |q.queue| ==> q.queue[i] < q.store.nextRunId
    ensures Tracked(Next(q, Enqueue))
  {
    var q' := Next(q, Enqueue);
    assert forall i :: 0 <= i < |q.queue| ==> q'.queue[i] == q.queue[i];
    assert Unfinished(q'.store, q.store.nextRunId) && q.store.nextRunId in q'.queue by {
      if q.store.fifo != [] { assert q.store.fifo[0] < q.store.nextRunId; }
      assert q'.queue[|q.queue|] == q.store.nextRunId;
    }
  }

  /** One status in the store is overwritten. */
  lemma WrittenRuns(s: S.Store, st: RunStatus)
    requires S.RunsOk(s)
    ensures var s' := S.Update(s, st);
      && s'.nextRunId == s.nextRunId && s'.fifo == s.fifo && s'.capacity == s.capacity && S.RunsOk(s')
      && (forall id :: id != st.id ==> (Unfinished(s', id) <==> Unfinished(s, id)))
      && (Unfinished(s', st.id) <==> Unfinished(s, st.id) && !IsDone(st.state))
  {
  }

  lemma OrderedWithout(q: Queue, q': Queue, i: nat)
    requires Ordered(q) && i < |q.queue| && q.watching != Some(q.queue[i])
    requires q.watching.Some? ==> q.queue[0] == q.watching.value
    requires q'.queue == q.queue[..i] + q.queue[i + 1..] && q'.started == q.started && q'.watching == q.watching
    requires q'.store.nextRunId == q.store.nextRunId
    ensures Ordered(q')
  {
    assert forall k :: 0 <= k < |q'.queue| ==> q'.queue[k] == q.queue[if k < i then k else k + 1];
  }

  lemma TrackedWithout(q: Queue, q': Queue, i: nat)
    requires Tracked(q) && Increasing(q.queue) && i < |q.queue| && (q.told ==> i > 0)
    requires q'.queue == q.queue[..i] + q.queue[i + 1..] && q'.told == q.told
    requires forall id :: id != q.queue[i] ==> (Unfinished(q'.store, id) <==> Unfinished(q.store, id))
    requires !Unfinished(q'.store, q.queue[i])
    ensures Tracked(q')
  {
    assert forall k :: 0 <= k < |q'.queue| ==> q'.queue[k] == q.queue[if k < i then k else k + 1];
    forall id | Unfinished(q'.store, id) ensures id in q'.queue {
      var k :| 0 <= k < |q.queue| && q.queue[k] == id;
      assert q'.queue[if k < i then k else k - 1] == id;
    }
  }

  lemma AbortKeepsInv(q: Queue, i: nat, note: string)
    requires Inv(q) && Enabled(q, AbortQueued(i, note))
    ensures Inv(Next(q, AbortQueued(i, note)))
  {
    var q' := Next(q, AbortQueued(i, note));
    WrittenRuns(q.store, Aborted(q.queue[i], note));
    OrderedWithout(q, q', i);
    TrackedWithout(q, q', i);
  }

  /** The run has an ABORTED status, and is no longer queued. */
  lemma AbortLeaves(q: Queue, i: nat, note: string)
    requires Inv(q) && Enabled(q, AbortQueued(i, note))
    ensures var q', run := Next(q, AbortQueued(i, note)), q.queue[i];
      && run in q'.store.runs && q'.store.runs[run].state == ABORTED && q'.store.runs[run].note == note
      && q'.queue == q.queue[..i] + q.queue[i + 1..]
  {
    assert Unfinished(q.store, q.queue[i]);
  }

  lemma ReportKeepsInv(q: Queue, st: RunStatus)
    requires Inv(q) && Enabled(q, Report(st))
    ensures Inv(Next(q, Report(st)))
  {
    var q' := Next(q, Report(st));
    WrittenRuns(q.store, st);
    assert Unfinished(q.store, q.queue[0]);
    assert Ordered(q');
    ReportKeepsTracked(q, q', st);
  }

  lemma ReportKeepsTracked(q: Queue, q': Queue, st: RunStatus)
    requires Tracked(q) && Increasing(q.queue) && q.queue != [] && q.queue[0] == st.id && !q.told
    requires q'.queue == q.queue && q'.told == IsDone(st.state)
    requires forall id :: id != st.id ==> (Unfinished(q'.store, id) <==> Unfinished(q.store, id))
    requires Unfinished(q'.store, st.id) <==> Unfinished(q.store, st.id) && !IsDone(st.state)
    ensures Tracked(q')
  {
    assert Unfinished(q.store, q.queue[0]);
  }

  lemma FinishKeepsInv(q: Queue)
    requires Inv(q) && Enabled(q, Finish)
    ensures Inv(Next(q, Finish))
  {
    var q' := Next(q, Finish);
    assert forall k :: 0 <= k < |q'.queue| ==> q'.queue[k] == q.queue[k + 1];
    assert Ordered(q');
    assert Tracked(q');
  }

  lemma NextKeepsInv(q: Queue, e: Event)
    requires Inv(q) && Enabled(q, e)
    ensures Inv(Next(q, e))
  {
    match e
    case Enqueue => EnqueueKeepsInv(q);
    case AbortQueued(i, note) => AbortKeepsInv(q, i, note);
    case TryUpdate => TryUpdateKeepsInv(q);
    case TryRun => TryRunKeepsInv(q);
    case UpdateDone => UpdateDoneKeepsInv(q);
    case Report(st) => ReportKeepsInv(q, st);
    case Finish => FinishKeepsInv(q);
    case Erase(id) => EraseKeepsInv(q, id);
  }

  lemma UpdateDoneKeepsInv(q: Queue)
    requires Inv(q) && Enabled(q, UpdateDone)
    ensures Inv(q.(updating := false)) && Inv(Next(q, UpdateDone))
  {
    TryRunKeepsInv(q.(updating := false));
  }

  lemma TryUpdateKeepsInv(q: Queue)
    requires Inv(q) && Enabled(q, TryUpdate)
    ensures Inv(Next(q, TryUpdate))
  {
  }

  lemma EraseKeepsInv(q: Queue, id: nat)
    requires Inv(q) && Enabled(q, Erase(id))
    ensures Inv(Next(q, Erase(id)))
  {
    EraseKeepsTracked(q, id);
  }

  lemma EraseKeepsTracked(q: Queue, id: nat)
    requires S.RunsOk(q.store) && Tracked(q)
    ensures S.RunsOk(S.Erase(q.store, id)) && Tracked(q.(store := S.Erase(q.store, id)))
  {
    var s' := S.Erase(q.store, id);
    assert forall k :: Unfinished(s', k) <==> Unfinished(q.store, k);
  }

  lemma TryRunKeepsInv(q: Queue)
    requires Inv(q)
    ensures Inv(TryRunNow(q))
  {
  }

  lemma NewQueueInv(capacity: int, history: nat)
    requires history != 0 ==> capacity <= 1
    ensures Inv(Queue([], None, false, false, false, capacity, S.Store(map[], [], history, 0, [], []), []))
  {
  }

  ghost predicate IsRun(qs: seq<Queue>, es: seq<Event>) {
    && |qs| == |es| + 1 && (qs[0].store.capacity != 0 ==> qs[0].capacity <= 1)
    && qs[0] == Queue([], None, false, false, false, qs[0].capacity,
                      S.Store(map[], [], qs[0].store.capacity, 0, [], []), [])
    && forall k :: 0 <= k < |es| ==> Enabled(qs[k], es[k]) && qs[k + 1] == Next(qs[k], es[k])
  }

  /** In every run: a run and a filer update are never under way together; the run under way heads the queue; runs
      start in the order of their ids; every unfinished run stored is queued. */
  lemma {:induction false} OneAtATime(qs: seq<Queue>, es: seq<Event>, k: nat)
    requires IsRun(qs, es) && k <= |es|
    ensures Inv(qs[k])
  {
    if k > 0 {
      OneAtATime(qs, es, k - 1);
      NextKeepsInv(qs[k - 1], es[k - 1]);
    }
  }

  // -------------------------------------------------------------------------------------------
  // Whose turn it is.

  lemma RunStep(qs: seq<Queue>, es: seq<Event>, k: nat)
    requires IsRun(qs, es) && k < |es|
    ensures Enabled(qs[k], es[k]) && qs[k + 1] == Next(qs[k], es[k])
  {
  }

  /** In every run, a step starts a run exactly if it is the end of an update or the loop's turn to run with nothing
      under way, and one is queued: the head of the queue. */
  lemma StartsHeadIff(qs: seq<Queue>, es: seq<Event>, k: nat)
    requires IsRun(qs, es) && k < |es|
    ensures var q, q' := qs[k], qs[k + 1];
      if q.queue != [] && (es[k] == UpdateDone || (es[k] == TryRun && q.watching.None? && !q.updating))
      then q'.started == q.started + [q.queue[0]] && q'.watching == Some(q.queue[0]) else q'.started == q.started
  {
    OneAtATime(qs, es, k);
    RunStep(qs, es, k);
  }

  /** In every run, a filer update is under way from a request that finds nothing under way until it is done. */
  lemma UpdateStartsIff(qs: seq<Queue>, es: seq<Event>, k: nat)
    requires IsRun(qs, es) && k < |es|
    ensures qs[k + 1].updating <==>
            if qs[k].updating then es[k] != UpdateDone else es[k] == TryUpdate && qs[k].watching.None?
  {
    RunStep(qs, es, k);
  }

  /** The request at step `j` is the last before step `k`, and found a run or an update under way. */
  ghost predicate PutOff(qs: seq<Queue>, es: seq<Event>, j: nat, k: nat)
    requires k <= |es| < |qs|
  {
    && j < k && es[j] == TryUpdate && (qs[j].watching.Some? || qs[j].updating)
    && forall i :: j < i < k ==> es[i] != TryUpdate
  }

  ghost predicate WasPutOff(qs: seq<Queue>, es: seq<Event>, k: nat)
    requires k <= |es| < |qs|
  {
    exists j: nat :: PutOff(qs, es, j, k)
  }

  lemma PutOffStep(qs: seq<Queue>, es: seq<Event>, k: nat)
    requires k < |es| < |qs|
    ensures WasPutOff(qs, es, k + 1) <==>
            if es[k] == TryUpdate then qs[k].watching.Some? || qs[k].updating else WasPutOff(qs, es, k)
  {
    var n := k + 1;
    if es[k] == TryUpdate && (qs[k].watching.Some? || qs[k].updating) { assert PutOff(qs, es, k, n); }
    if WasPutOff(qs, es, n) {
      var j: nat :| PutOff(qs, es, j, n);
      if j < k { assert PutOff(qs, es, j, k); }
    }
    if es[k] != TryUpdate && WasPutOff(qs, es, k) {
      var j: nat :| PutOff(qs, es, j, k);
      assert PutOff(qs, es, j, n);
    }
  }

  /** In every run, an update is asked for exactly when the last request for one found something under way. */
  lemma {:induction false} RequestedIffPutOff(qs: seq<Queue>, es: seq<Event>, k: nat)
    requires IsRun(qs, es) && k <= |es|
    ensures qs[k].updateRequested <==> WasPutOff(qs, es, k)
  {
    if k > 0 {
      RequestedIffPutOff(qs, es, k - 1);
      RunStep(qs, es, k - 1);
      PutOffStep(qs, es, k - 1);
      if es[k - 1] != TryUpdate { OthersKeepRequest(qs[k - 1], es[k - 1]); }
    }
  }

  lemma OthersKeepRequest(q: Queue, e: Event)
    requires Enabled(q, e) && e != TryUpdate
    ensures Next(q, e).updateRequested == q.updateRequested
  {
  }

  lemma RequestWaits(q: Queue, e: Event)
    requires Enabled(q, e) && q.updateRequested && !q.updating && !Next(q, e).updating
    ensures Next(q, e).started == q.started && Next(q, e).updateRequested
  {
  }

  /** In every run, while an update is asked for and none is under way, no run starts before an update does, and the
      request is not forgotten. */
  lemma {:induction false} RequestedUpdateGoesFirst(qs: seq<Queue>, es: seq<Event>, j: nat, k: nat)
    requires IsRun(qs, es) && j <= k <= |es| && qs[j].updateRequested && forall i :: j <= i <= k ==> !qs[i].updating
    ensures qs[k].started == qs[j].started && qs[k].updateRequested
    decreases k
  {
    if j < k {
      RequestedUpdateGoesFirst(qs, es, j, k - 1);
      RunStep(qs, es, k - 1);
      RequestWaits(qs[k - 1], es[k - 1]);
    }
  }
}

module Queue {
  import opened Wrappers
  import opened RunStatuses
  import opened QueueSpec
  import S = StatusSpec
  import StatusStore
  import Sequences

  class QueueController {
    var queue: seq<nat>
    var runningId: Option<nat>
    var abortSent: bool
    var told: bool
    var updating: bool
    var updateRequested: bool
    const capacity: int
    const statuses: StatusStore.StatusManager
    ghost var started: seq<nat>

    ghost function Abs(): QueueSpec.Queue
      reads this, statuses
    {
      QueueSpec.Queue(queue, runningId, told, updating, updateRequested, capacity, statuses.Abs(), started)
    }

    ghost predicate Valid()
      reads this, statuses
    {
      QueueSpec.Inv(Abs()) && S.Inv(statuses.Abs())
    }

    /** A queue keeps an unlimited history of its runs; a single runner, asked for with capacity 0, only its last. */
    constructor (capacity: int)
      ensures Valid() && fresh(statuses) && queue == [] && this.capacity == if capacity == 0 then 1 else capacity
    {
      var history := 1;
      var slots := capacity;
      if capacity > 0 {
        history := 0;
      } else if capacity == 0 {
        slots := 1;
      }
      statuses := new StatusStore.StatusManager(history);
      this.capacity := slots;
      NewQueueInv(slots, history);
      queue, runningId, abortSent, told, updating, updateRequested, started := [], None, false, false, false, false, [];
    }

    method Enqueue(initialized: bool) returns (r: Result<RunStatus, string>)
      requires Valid()
      modifies this, statuses
      ensures Valid() && (r.Ok? <==> initialized && |old(queue)| < capacity)
      ensures Abs() == if r.Ok? then Next(old(Abs()), QueueSpec.Enqueue) else old(Abs())
      ensures r.Ok? ==> r.value.state == PENDING && queue == old(queue) + [r.value.id]
    {
      if !initialized { return Err("queue is initializing"); }
      if |queue| >= capacity { return Err("queue is full"); }
      EnqueueKeepsInv(Abs());
      S.NewRunKeepsInv(statuses.Abs());
      var st := statuses.NewRun();
      queue := queue + [st.id];
      r := Ok(st);
    }

    /** Aborts a run: a running one is told to stop, a queued one is dropped with an ABORTED status. */
    method Abort(run: nat, note: string) returns (ghost at: nat)
      requires Valid()
      modifies this, statuses
      ensures Valid() && at <= |old(queue)|
      ensures if old(runningId) == Some(run) then Abs() == old(Abs()) && abortSent
              else if at < |old(queue)| then old(queue)[at] == run && Abs() == Next(old(Abs()), AbortQueued(at, note))
              else run !in old(queue) && Abs() == old(Abs())
      ensures old(runningId) != Some(run) && run in old(queue) ==>
        && run !in queue && (forall id <- old(queue) :: id != run ==> id in queue)
        && run in statuses.runs && statuses.runs[run].state == ABORTED && statuses.runs[run].note == note
    {
      at := |queue|;
      if runningId == Some(run) {
        abortSent := true;
        return;
      }
      var rest, i := Sequences.RangeDelete(queue, (id: nat) => id == run);
      at := i;
      if i < |queue| { Drop(i, rest, note); }
    }

    method Drop(i: nat, rest: seq<nat>, note: string)
      requires Valid() && i < |queue| && rest == Sequences.Without(queue, i) && runningId != Some(queue[i])
      modifies this, statuses
      ensures Valid() && Abs() == Next(old(Abs()), AbortQueued(i, note))
      ensures var run := old(queue)[i];
        run in statuses.runs && statuses.runs[run].state == ABORTED && statuses.runs[run].note == note
      ensures queue == Sequences.Without(old(queue), i)
    {
      ghost var q := Next(Abs(), AbortQueued(i, note));
      AbortKeepsInv(Abs(), i, note);
      AbortLeaves(Abs(), i, note);
      S.UpdateKeepsInv(statuses.Abs(), Aborted(queue[i], note));
      var _ := statuses.Update(Aborted(queue[i], note));
      queue := rest;
      assert Abs() == q;
    }

    method TryUpdate()
      requires Valid()
      modifies this
      ensures Valid() && Abs() == TryUpdateNow(old(Abs()))
    {
      if runningId.None? && !updating {
        updateRequested := false;
        updating := true;
      } else {
        updateRequested := true;
      }
    }

    method TryRun()
      requires Valid()
      modifies this
      ensures Valid() && Abs() == TryRunNow(old(Abs()))
    {
      TryRunKeepsInv(Abs());
      if runningId.None? && !updating && |queue| > 0 {
        runningId, abortSent, told := Some(queue[0]), false, false;
        started := started + [queue[0]];
      }
    }

    /** The loop comes round: an update that was asked for, or is asked for now, goes before the next run. */
    method TakeTurn(updateWaiting: bool)
      requires Valid()
      modifies this
      ensures Valid()
      ensures var e := if old(updateRequested) || updateWaiting then QueueSpec.TryUpdate else QueueSpec.TryRun;
        Enabled(old(Abs()), e) && Abs() == Next(old(Abs()), e)
      ensures old(updateRequested) || updateWaiting ==> started == old(started)
    {
      if updateRequested {
        TryUpdate();
      } else if updateWaiting {
        TryUpdate();
      } else {
        TryRun();
      }
    }

    /** The loop hears that a filer update has finished. */
    method UpdateDone()
      requires Valid() && updating
      modifies this
      ensures Valid() && Abs() == Next(old(Abs()), QueueSpec.UpdateDone)
    {
      UpdateDoneKeepsInv(Abs());
      updating := false;
      TryRun();
    }

    /** The watcher of the running command passes a status on. */
    method Report(st: RunStatus)
      requires Valid() && runningId == Some(st.id) && !told
      modifies this, statuses
      ensures Valid() && Abs() == Next(old(Abs()), QueueSpec.Report(st))
    {
      ReportKeepsInv(Abs(), st);
      S.UpdateKeepsInv(statuses.Abs(), st);
      var _ := statuses.Update(st);
      told := IsDone(st.state);
    }

    /** The loop hears that the running command is done. */
    method Finish()
      requires Valid() && told
      modifies this
      ensures Valid() && Abs() == Next(old(Abs()), QueueSpec.Finish)
    {
      FinishKeepsInv(Abs());
      runningId, abortSent, told := None, false, false;
      queue := queue[1..];
    }
  }
}
