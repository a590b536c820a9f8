/** Two things the cluster state does not guarantee, each with a run that shows it: that a healthy node without a task
    can be given one, and that no node is given two. When the second holds is said here, when the first does in
    FreeNodes. */
module ClusterFaults {
  import opened TaskGroups
  import opened ClusterSpec
  import opened ClusterRuns

  // -------------------------------------------------------------------------------------------
  // Building runs.

  const NO_READY_FN := Config(false, 0, 0)

  /** A worker joins and, where that is asked for, is found ready. */
  ghost function Arrival<N>(cfg: Config, id: string, n: N): seq<Event<N>> {
    if cfg.hasReadyFn then [Joins(id, n), Readies(n), Cleans(id, 0)] else [Joins(id, n)]
  }

  /** However it got ready, a new worker ends up healthy and idle. */
  lemma Arrives<N>(cfg: Config, events: seq<Event<N>>, id: string, n: N)
    requires var s := Run(cfg, events); n !in s.info && Untaken(s, id)
    ensures "" in Run(cfg, events).groups
    ensures Run(cfg, events + Arrival(cfg, id, n)) == Joined(Run(cfg, events), NO_READY_FN, id, n)
  {
    var s := Run(cfg, events);
    RunKeepsInv(cfg, events, false);
    RunExtends(cfg, events, Joins(id, n));
    if cfg.hasReadyFn {
      var joined := events + [Joins(id, n)];
      RunExtends(cfg, joined, Readies(n));
      RunExtends(cfg, joined + [Readies(n)], Cleans(id, 0));
      assert joined + [Readies(n)] + [Cleans(id, 0)] == events + Arrival(cfg, id, n);
      ReadyIsJoined(s, cfg, id, n);
    }
  }

  lemma ReadyIsJoined<N>(s: State<N>, cfg: Config, id: string, n: N)
    requires "" in s.groups && Untaken(s, id) && cfg.hasReadyFn
    ensures var s1 := BecameReady(Joined(s, cfg, id, n), n);
      Entries(s1, id) && Cleaned(s1, cfg, id, 0) == Joined(s, NO_READY_FN, id, n)
  {
    var s1 := BecameReady(Joined(s, cfg, id, n), n);
    var s2, s3 := Cleaned(s1, cfg, id, 0), Joined(s, NO_READY_FN, id, n);
    assert s2.nodes == s3.nodes && s2.suspended == s3.suspended && s2.info == s3.info;
  }

  const TASK := TaskDef(TaskRef("", ""), "")

  /** Healthy, and idle among the nodes without a snapshot. */
  ghost predicate Ready<N>(s: State<N>, n: N) {
    && Healthy(s, n) && s.info[n].snapshotId == "" && "" in s.groups
    && s.info[n].id in s.groups[""].idle && s.groups[""].idle[s.info[n].id] == n
  }

  ghost function StartOn<N>(id: string, n: N): Event<N> { Starts([], [TASK], [Assignment(TASK, "", id, n)]) }

  ghost function OutOfIdle<N>(gs: Groups<N>, id: string, n: N): Groups<N>
    requires "" in gs
  {
    gs["" := Group(gs[""].idle - {id}, gs[""].busy[id := n])]
  }

  ghost function WithTask<N>(s: State<N>, n: N): State<N>
    requires n in s.info && "" in s.groups
  {
    s.(groups := OutOfIdle(s.groups, s.info[n].id, n), numRunning := s.numRunning + 1,
       info := s.info[n := s.info[n].(runningJob := "", runningTask := "")], pending := s.pending + multiset{n})
  }

  lemma CanStartOn<N>(s: State<N>, n: N)
    requires Ready(s, n)
    ensures Enabled(s, StartOn(s.info[n].id, n))
  {
    var id := s.info[n].id;
    var a := Assignment(TASK, "", id, n);
    var snapIds := [TASK.snapshotId, ""] + [];
    assert [a][..0] == [];
    assert snapIds[0] == "" && Usable(s, s.groups, "", id);
    assert FirstUsable(s, s.groups, snapIds, "", id);
    assert AssignedInTurn(s, [], [TASK], [a][..0]);
  }

  lemma StartedOn<N>(s: State<N>, n: N)
    requires Ready(s, n)
    ensures Started(s, [Assignment(TASK, "", s.info[n].id, n)]) == WithTask(s, n)
  {
    var id := s.info[n].id;
    var batch := [Assignment(TASK, "", id, n)];
    assert batch[..0] == [];
    var gs := MakeBusy(s.groups, "", id);
    assert Left(s.groups, batch) == gs;
    assert gs[""].idle - {id} == gs[""].idle;
    assert gs[""].busy[id := n] == gs[""].busy;
    assert Rebooked(gs, "", "", id, n) == OutOfIdle(s.groups, id, n);
    var s1 := s.(groups := gs);
    assert BookedAll(s1, batch[..0]) == s1;
  }

  lemma TaskStarts<N>(cfg: Config, events: seq<Event<N>>, n: N)
    requires Ready(Run(cfg, events), n)
    ensures var s := Run(cfg, events); Run(cfg, events + [StartOn(s.info[n].id, n)]) == WithTask(s, n)
  {
    var s := Run(cfg, events);
    CanStartOn(s, n);
    StartedOn(s, n);
    RunExtends(cfg, events, StartOn(s.info[n].id, n));
  }

  // -------------------------------------------------------------------------------------------
  // A healthy node without a task need not be idle.

  /** Without a task, and in no idle set. */
  ghost predicate Stranded<N>(s: State<N>, n: N) { n in s.info && n !in s.pending && IdleNowhere(s.groups, n) }

  /** The node runs its one task; no worker goes by the id made up for it. */
  ghost predicate AtWork<N>(s: State<N>, n: N) {
    && Healthy(s, n) && s.info[n].id !in s.suspended && "" in s.groups && s.info[n].snapshotId in s.groups
    && s.pending[n] == 1 && IdleNowhere(s.groups, n) && Untaken(s, s.info[n].id + ERROR_SUFFIX)
  }

  lemma NewNodeAtWork<N>(s: State<N>, id: string, n: N)
    requires Inv(s, false) && n !in s.info && Untaken(s, id) && Untaken(s, id + ERROR_SUFFIX)
    ensures var s1 := Joined(s, NO_READY_FN, id, n); Ready(s1, n) && s1.info[n].id == id && AtWork(WithTask(s1, n), n)
  {
    UnknownIsNowhere(s, n);
    OutOfIdleAgain(s.groups, id, n);
  }

  lemma UnknownIsNowhere<N>(s: State<N>, n: N)
    requires Inv(s, false) && n !in s.info
    ensures IdleNowhere(s.groups, n) && n !in s.pending && "" in s.groups
  {
  }

  lemma OutOfIdleAgain<N>(gs: Groups<N>, id: string, n: N)
    requires "" in gs && IdleNowhere(gs, n)
    ensures var gs1 := gs["" := gs[""].(idle := gs[""].idle[id := n])]; IdleNowhere(OutOfIdle(gs1, id, n), n)
  {
  }

  ghost predicate LostAtWork<N>(s: State<N>, n: N) {
    && n in s.info && s.info[n].timeLost != 0 && s.info[n].readyCh == Absent && s.info[n].timeFlaky == 0
    && s.info[n].id !in s.nodes && s.info[n].id in s.suspended && s.suspended[s.info[n].id] == n
    && "" in s.groups && s.info[n].snapshotId in s.groups && Untaken(s, s.info[n].id + ERROR_SUFFIX)
    && IdleNowhere(s.groups, n) && s.pending[n] == 1
  }

  lemma LosesWorker<N>(s: State<N>, n: N)
    requires AtWork(s, n)
    ensures Entries(s, s.info[n].id)
    ensures var s' := Removed(s, s.info[n].id, 1);
      LostAtWork(s', n) && s'.info.Keys == s.info.Keys && s'.info[n].id == s.info[n].id
  {
    assert s.info[n].id != s.info[n].id + ERROR_SUFFIX;
  }

  /** The task completes and the node comes back: it is healthy and free, and stranded. */
  lemma ComesBack<N>(s: State<N>, cfg: Config, n: N, other: N)
    requires LostAtWork(s, n) && other !in s.info
    ensures Entries(s, Reported(s, n)) && var s1, id := Fired(s, n, false, 1), s.info[n].id;
      && Entries(s1, id) && other !in s1.info && var s2 := Added(s1, cfg, id, other);
      && Healthy(s2, n) && s2.info[n].id == id && Stranded(s2, n)
  {
    LateCompletionTouchesNoNode(s, n, false, 1);
  }

  ghost function Working<N>(cfg: Config, id: string, n: N): seq<Event<N>> { Arrival(cfg, id, n) + [StartOn(id, n)] }

  lemma GetsToWork<N>(cfg: Config, events: seq<Event<N>>, id: string, n: N)
    requires var s := Run(cfg, events); n !in s.info && Untaken(s, id) && Untaken(s, id + ERROR_SUFFIX)
    ensures var s := Run(cfg, events + Working(cfg, id, n));
      AtWork(s, n) && s.info[n].id == id && s.info.Keys == Run(cfg, events).info.Keys + {n}
  {
    var arrived := events + Arrival(cfg, id, n);
    assert arrived + [StartOn(id, n)] == events + Working(cfg, id, n);
    ArrivesReady(cfg, events, arrived, id, n);
    StartsToWork(cfg, arrived, Run(cfg, arrived), id, n);
  }

  lemma ArrivesReady<N>(cfg: Config, events: seq<Event<N>>, arrived: seq<Event<N>>, id: string, n: N)
    requires var s := Run(cfg, events); n !in s.info && Untaken(s, id) && Untaken(s, id + ERROR_SUFFIX)
    requires arrived == events + Arrival(cfg, id, n)
    ensures var s := Run(cfg, arrived);
      && Ready(s, n) && s.info[n].id == id && AtWork(WithTask(s, n), n)
      && s.info.Keys == Run(cfg, events).info.Keys + {n}
  {
    RunKeepsInv(cfg, events, false);
    Arrives(cfg, events, id, n);
    NewNodeAtWork(Run(cfg, events), id, n);
  }

  lemma StartsToWork<N>(cfg: Config, arrived: seq<Event<N>>, s: State<N>, id: string, n: N)
    requires Run(cfg, arrived) == s && Ready(s, n) && s.info[n].id == id && AtWork(WithTask(s, n), n)
    ensures var s' := Run(cfg, arrived + [StartOn(id, n)]);
      AtWork(s', n) && s'.info[n].id == id && s'.info.Keys == s.info.Keys
  {
    TaskStarts(cfg, arrived, n);
  }

  ghost function LostAndBack<N>(id: string, n: N, other: N): seq<Event<N>> {
    [Leaves(id, 1), Fires(n, false, 1), Joins(id, other)]
  }

  lemma IsLostAndBack<N>(cfg: Config, events: seq<Event<N>>, n: N, other: N)
    requires var s := Run(cfg, events); AtWork(s, n) && other !in s.info
    ensures var id := Run(cfg, events).info[n].id;
      var s := Run(cfg, events + LostAndBack(id, n, other)); Healthy(s, n) && s.info[n].id == id && Stranded(s, n)
  {
    var id := Run(cfg, events).info[n].id;
    LosesWorker(Run(cfg, events), n);
    RunExtends(cfg, events, Leaves(id, 1));
    var lost := events + [Leaves(id, 1)];
    ComesBack(Run(cfg, lost), cfg, n, other);
    RunExtends(cfg, lost, Fires(n, false, 1));
    RunExtends(cfg, lost + [Fires(n, false, 1)], Joins(id, other));
    assert lost + [Fires(n, false, 1)] + [Joins(id, other)] == events + LostAndBack(id, n, other);
  }

  /** After any run, a new worker that joins, is given a task, is lost while it runs, and comes back only after the
      task completed, is healthy and free but in no idle set. */
  lemma ReturningNodeIsStranded<N>(cfg: Config, events: seq<Event<N>>, id: string, n: N, other: N)
    requires var s := Run(cfg, events); n !in s.info && other !in s.info && n != other
    requires var s := Run(cfg, events); Untaken(s, id) && Untaken(s, id + ERROR_SUFFIX)
    ensures var s := Run(cfg, events + Working(cfg, id, n) + LostAndBack(id, n, other));
      Healthy(s, n) && s.info[n].id == id && Stranded(s, n)
  {
    GetsToWork(cfg, events, id, n);
    IsLostAndBack(cfg, events + Working(cfg, id, n), n, other);
  }

  lemma {:induction false} NotIdleNotAssigned<N>(s: State<N>, order: seq<string>, tasks: seq<TaskDef>,
                                                 batch: seq<Assignment<N>>, n: N)
    requires IdleNowhere(s.groups, n) && AssignedInTurn(s, order, tasks, batch)
    ensures IdleNowhere(Left(s.groups, batch), n) && forall i :: 0 <= i < |batch| ==> batch[i].node != n
    decreases |batch|
  {
    if batch != [] {
      var init, a := batch[..|batch| - 1], batch[|batch| - 1];
      assert batch == init + [a];
      NotIdleNotAssigned(s, order, tasks, init, n);
    }
  }

  /** The periodic look finds the node lost for too long and lets go of it. */
  ghost predicate Reaps<N>(s: State<N>, cfg: Config, e: Event<N>, n: N) {
    && n in s.info && e.Cleans? && e.id == s.info[n].id
    && s.info[n].timeLost != 0 && e.now - s.info[n].timeLost > cfg.maxLost
  }

  ghost predicate Loses<N>(e: Event<N>, id: string) { e.Leaves? && e.id == id }

  /** What becomes of a stranded node: it stays stranded under its id, healthy if it was and is not `lost`, and the
      node known under that id unless it is `reaped`. */
  ghost predicate StaysSo<N>(s: State<N>, s': State<N>, n: N, lost: bool, reaped: bool) {
    && n in s.info && Stranded(s', n) && s'.info[n].id == s.info[n].id
    && (Healthy(s, n) && !lost ==> Healthy(s', n)) && (Live(s, n) && !reaped ==> Live(s', n))
  }

  lemma StartsKeepStranded<N>(s: State<N>, order: seq<string>, tasks: seq<TaskDef>, batch: seq<Assignment<N>>, n: N)
    requires Inv(s, false) && Stranded(s, n) && AssignedInTurn(s, order, tasks, batch)
    ensures StaysSo(s, Started(s, batch), n, false, false)
  {
    NotIdleNotAssigned(s, order, tasks, batch, n);
    NotAmong(batch, n);
    StartedKeepsInv(s, order, tasks, batch, false);
  }

  lemma CompletionKeepsStranded<N>(s: State<N>, m: N, flaky: bool, now: nat, n: N)
    requires MapsOk(s) && Stranded(s, n) && m in s.pending && m in s.info && IsCurrent(s, m) && Entries(s, s.info[m].id)
    ensures StaysSo(s, Fired(s, m, flaky, now), n, false, false)
  {
    assert Live(s, n) ==> s.info[n].id != s.info[m].id;
  }

  lemma FiresKeepStranded<N>(s: State<N>, m: N, flaky: bool, now: nat, n: N)
    requires Inv(s, true) && Stranded(s, n) && m in s.pending && Entries(s, Reported(s, m))
    ensures StaysSo(s, Fired(s, m, flaky, now), n, false, false)
  {
    if IsCurrent(s, m) {
      CompletionKeepsStranded(s, m, flaky, now, n);
    } else {
      ApartIsUntaken(s, m);
      LateCompletionTouchesNoNode(s, m, flaky, now);
    }
  }

  lemma AddedKeepsStranded<N>(s: State<N>, cfg: Config, id: string, m: N, n: N)
    requires MapsOk(s) && Stranded(s, n) && m !in s.info && Entries(s, id)
    ensures StaysSo(s, Added(s, cfg, id, m), n, false, false)
  {
  }

  lemma RemovedKeepsStranded<N>(s: State<N>, id: string, now: nat, n: N)
    requires MapsOk(s) && Stranded(s, n) && Entries(s, id)
    ensures StaysSo(s, Removed(s, id, now), n, id == s.info[n].id, false)
  {
  }

  lemma PlacedStaysStranded<N>(s: State<N>, m: N, node: Node, healthy: bool, n: N)
    requires MapsOk(s) && Stranded(s, n) && node.id in s.suspended && s.suspended[node.id] == m
    ensures StaysSo(s, Placed(s, m, node, healthy), n, false, false)
  {
  }

  lemma ReapedStaysStranded<N>(s: State<N>, m: N, node: Node, n: N)
    requires MapsOk(s) && Stranded(s, n) && node.id in s.suspended && s.suspended[node.id] == m
    requires node.snapshotId in s.groups
    ensures var s' := s.(info := s.info[m := node], suspended := s.suspended - {node.id},
                         groups := Dropped(s.groups, node.snapshotId, node.id));
      StaysSo(s, s', n, false, node.id == s.info[n].id)
  {
    DroppedShape(s.groups, node.snapshotId, node.id);
  }

  lemma CleanedKeepsStranded<N>(s: State<N>, cfg: Config, id: string, now: nat, n: N)
    requires MapsOk(s) && Stranded(s, n) && Entries(s, id)
    ensures StaysSo(s, Cleaned(s, cfg, id, now), n, false, Reaps(s, cfg, Cleans(id, now), n))
  {
    if id in s.suspended {
      var m := s.suspended[id];
      var node := if s.info[m].readyCh == Open then s.info[m] else s.info[m].(readyCh := Absent);
      if !node.Suspended() {
        PlacedStaysStranded(s, m, node, true, n);
      } else if node.timeLost != 0 && now - node.timeLost > cfg.maxLost {
        ReapedStaysStranded(s, m, node, n);
        assert m != n ==> (Live(s, n) ==> s.info[n].id != id);
      } else if node.timeFlaky != 0 && now - node.timeFlaky > cfg.maxFlaky {
        var again := node.(timeFlaky := 0, snapshotId := "");
        PlacedStaysStranded(s, m, if cfg.hasReadyFn then again.(readyCh := Open) else again, !cfg.hasReadyFn, n);
      } else {
        PlacedStaysStranded(s, m, node, false, n);
      }
    }
  }

  lemma ReadyKeepsStranded<N>(s: State<N>, m: N, n: N)
    requires MapsOk(s) && Stranded(s, n) && m in s.info
    ensures StaysSo(s, BecameReady(s, m), n, false, false)
  {
  }

  /** No event makes a stranded node idle, whatever happens to it. */
  lemma NextKeepsStranded<N>(s: State<N>, cfg: Config, e: Event<N>, n: N)
    requires Inv(s, true) && Stranded(s, n) && Enabled(s, e) && Defined(s, e)
    ensures StaysSo(s, Next(s, cfg, e), n, Loses(e, s.info[n].id), Reaps(s, cfg, e, n))
  {
    match e
    case Starts(order, tasks, batch) =>
      WeakerInv(s, true);
      StartsKeepStranded(s, order, tasks, batch, n);
    case Fires(m, flaky, now) => FiresKeepStranded(s, m, flaky, now, n);
    case Joins(id, m) => AddedKeepsStranded(s, cfg, id, m, n);
    case Leaves(id, now) => RemovedKeepsStranded(s, id, now, n);
    case Cleans(id, now) => CleanedKeepsStranded(s, cfg, id, now, n);
    case Readies(m) => ReadyKeepsStranded(s, m, n);
  }

  lemma ApartGrows<N>(events: seq<Event<N>>, more: seq<Event<N>>)
    requires Apart(JoinedIds(events + more)) && more != []
    ensures Apart(JoinedIds(events + more[..|more| - 1]))
    ensures (events + more)[..|events + more| - 1] == events + more[..|more| - 1]
  {
    assert (events + more)[..|events + more| - 1] == events + more[..|more| - 1];
  }

  /** At no point is the node found lost for too long. */
  ghost predicate Unreaped<N>(cfg: Config, events: seq<Event<N>>, more: seq<Event<N>>, n: N) {
    forall i :: 0 <= i < |more| ==> !Reaps(Run(cfg, events + more[..i]), cfg, more[i], n)
  }

  lemma UnreapedBefore<N>(cfg: Config, events: seq<Event<N>>, more: seq<Event<N>>, n: N)
    requires Unreaped(cfg, events, more, n) && more != []
    ensures var init := more[..|more| - 1];
      Unreaped(cfg, events, init, n) && !Reaps(Run(cfg, events + init), cfg, more[|more| - 1], n)
  {
    var init := more[..|more| - 1];
    forall i | 0 <= i < |init| ensures !Reaps(Run(cfg, events + init[..i]), cfg, init[i], n) {
      assert init[..i] == more[..i];
    }
  }

  /** What a stranded node is after a run went on: still stranded; healthy if it was and was not lost again; and
      known under its id if it was and was not reaped. */
  ghost predicate StillSo<N>(cfg: Config, events: seq<Event<N>>, more: seq<Event<N>>, n: N) {
    var s0, s := Run(cfg, events), Run(cfg, events + more);
    && n in s0.info && Stranded(s, n) && s.info[n].id == s0.info[n].id
    && (Healthy(s0, n) && (forall e <- more :: !Loses(e, s0.info[n].id)) ==> Healthy(s, n))
    && (Live(s0, n) && Unreaped(cfg, events, more, n) ==> Live(s, n))
  }

  lemma OneMoreStays<N>(cfg: Config, events: seq<Event<N>>, more: seq<Event<N>>, n: N)
    requires Apart(JoinedIds(events + more)) && more != [] && StillSo(cfg, events, more[..|more| - 1], n)
    ensures StillSo(cfg, events, more, n)
  {
    var init, e := more[..|more| - 1], more[|more| - 1];
    ApartGrows(events, more);
    var s := Run(cfg, events + init);
    RunKeepsInv(cfg, events + init, true);
    assert forall f <- init :: f in more;
    if Enabled(s, e) && Defined(s, e) { NextKeepsStranded(s, cfg, e, n); }
    if Unreaped(cfg, events, more, n) { UnreapedBefore(cfg, events, more, n); }
  }

  /** However a run goes on, a stranded node stays stranded. */
  lemma {:induction false} StaysStranded<N>(cfg: Config, events: seq<Event<N>>, more: seq<Event<N>>, n: N)
    requires Apart(JoinedIds(events + more)) && Stranded(Run(cfg, events), n)
    ensures StillSo(cfg, events, more, n)
    decreases |more|
  {
    if more == [] {
      assert events + more == events;
    } else {
      ApartGrows(events, more);
      StaysStranded(cfg, events, more[..|more| - 1], n);
      OneMoreStays(cfg, events, more, n);
    }
  }

  lemma StrandedNotAssigned<N>(s: State<N>, order: seq<string>, tasks: seq<TaskDef>, batch: seq<Assignment<N>>, n: N)
    requires Inv(s, false) && Stranded(s, n) && AssignedInTurn(s, order, tasks, batch)
    ensures forall i :: 0 <= i < |batch| ==> batch[i].node != n && (Live(s, n) ==> batch[i].id != s.info[n].id)
  {
    NotIdleNotAssigned(s, order, tasks, batch, n);
    BatchIsFit(s, order, tasks, batch, false);
    forall i | 0 <= i < |batch| && Live(s, n) ensures batch[i].id != s.info[n].id {
      assert Fit(s, Left(s.groups, batch), batch[i].node, false);
    }
  }

  /** So a stranded node is never given a task, and its worker none until the node was lost again and reaped. */
  lemma StrandedGetsNoTask<N>(cfg: Config, events: seq<Event<N>>, more: seq<Event<N>>, n: N,
                              order: seq<string>, tasks: seq<TaskDef>, batch: seq<Assignment<N>>)
    requires Apart(JoinedIds(events + more)) && Stranded(Run(cfg, events), n)
    requires AssignedInTurn(Run(cfg, events + more), order, tasks, batch)
    ensures forall i :: 0 <= i < |batch| ==> batch[i].node != n
    ensures var s := Run(cfg, events); Live(s, n) && Unreaped(cfg, events, more, n) ==>
              forall i :: 0 <= i < |batch| ==> batch[i].id != s.info[n].id
  {
    StaysStranded(cfg, events, more, n);
    RunKeepsInv(cfg, events + more, false);
    StrandedNotAssigned(Run(cfg, events + more), order, tasks, batch, n);
  }

  // -------------------------------------------------------------------------------------------
  // A worker whose id is the made-up id of another may be given two tasks.

  lemma {:induction false} JoinedIdsConcat<N>(a: seq<Event<N>>, b: seq<Event<N>>)
    ensures JoinedIds(a + b) == JoinedIds(a) + JoinedIds(b)
  {
    if b == [] {
      assert a + b == a;
    } else {
      assert (a + b)[..|a + b| - 1] == a + b[..|b| - 1];
      JoinedIdsConcat(a, b[..|b| - 1]);
    }
  }

  lemma ArrivalIds<N>(cfg: Config, id: string, n: N)
    ensures JoinedIds(Arrival(cfg, id, n)) == {id}
  {
    assert JoinedIds([Joins(id, n)]) == {id};
    JoinedIdsConcat([Joins(id, n)], [Readies(n), Cleans(id, 0)]);
    assert [Joins(id, n)] + [Readies(n), Cleans(id, 0)] == [Joins(id, n), Readies(n), Cleans(id, 0)];
    assert JoinedIds([Readies(n), Cleans(id, 0)]) == {};
  }

  /** Two healthy nodes, one going by the id made up for the other. */
  ghost predicate Twins<N>(s: State<N>, n: N, m: N) {
    && Healthy(s, n) && Healthy(s, m) && s.info[m].id == s.info[n].id + ERROR_SUFFIX
    && s.info[n].snapshotId == s.info[m].snapshotId == "" && s.suspended == map[] && "" in s.groups
  }

  lemma FirstTwin<N>(id: string, n: N)
    ensures var s := Joined(Start(), NO_READY_FN, id, n);
      && Ready(s, n) && s.info.Keys == {n} && s.info[n].id == id && s.nodes.Keys == {id}
      && s.suspended == map[] && s.pending == multiset{}
  {
  }

  lemma SecondTwin<N>(s: State<N>, id: string, n: N, m: N)
    requires Ready(s, n) && s.info[n].id == id && s.info.Keys == {n} && s.suspended == map[] && n != m
    ensures var s' := Joined(s, NO_READY_FN, id + ERROR_SUFFIX, m);
      Twins(s', n, m) && s'.info[n].id == id && Ready(s', n) && Ready(s', m) && s'.pending == s.pending
  {
    assert id != id + ERROR_SUFFIX;
  }

  lemma TwinsArrive<N>(cfg: Config, id: string, n: N, m: N) returns (events: seq<Event<N>>)
    requires n != m
    ensures JoinedIds(events) == {id, id + ERROR_SUFFIX}
    ensures var s := Run(cfg, events);
      Twins(s, n, m) && s.info[n].id == id && Ready(s, n) && Ready(s, m) && s.pending == multiset{}
  {
    var first, second := Arrival(cfg, id, n), Arrival(cfg, id + ERROR_SUFFIX, m);
    events := first + second;
    ArrivalIds(cfg, id, n);
    ArrivalIds(cfg, id + ERROR_SUFFIX, m);
    JoinedIdsConcat(first, second);
    FirstTwin(id, n);
    FirstArrives(cfg, id, n);
    SecondTwin(Run(cfg, first), id, n, m);
    Arrives(cfg, first, id + ERROR_SUFFIX, m);
  }

  lemma FirstArrives<N>(cfg: Config, id: string, n: N)
    ensures Run(cfg, Arrival(cfg, id, n)) == Joined(Start(), NO_READY_FN, id, n)
  {
    Arrives(cfg, [], id, n);
    assert [] + Arrival(cfg, id, n) == Arrival(cfg, id, n);
  }

  /** Both run a task. */
  lemma TwinsStart<N>(cfg: Config, id: string, n: N, m: N) returns (events: seq<Event<N>>)
    requires n != m
    ensures JoinedIds(events) == {id, id + ERROR_SUFFIX}
    ensures var s := Run(cfg, events); Twins(s, n, m) && s.info[n].id == id && s.pending == multiset{n, m}
  {
    var ready := TwinsArrive(cfg, id, n, m);
    var s := Run(cfg, ready);
    TaskStarts(cfg, ready, n);
    var one := ready + [StartOn(s.info[n].id, n)];
    WithTaskKeeps(s, n, m);
    TaskStarts(cfg, one, m);
    events := one + [StartOn(s.info[m].id, m)];
    WithTaskKeepsTwins(s, n, m, n);
    WithTaskKeepsTwins(WithTask(s, n), n, m, m);
    JoinedIdsConcat(ready, [StartOn(s.info[n].id, n)]);
    JoinedIdsConcat(one, [StartOn(s.info[m].id, m)]);
  }

  lemma WithTaskKeeps<N>(s: State<N>, n: N, m: N)
    requires Ready(s, n) && Ready(s, m) && s.info[n].id != s.info[m].id
    ensures Ready(WithTask(s, n), m)
  {
  }

  lemma WithTaskKeepsTwins<N>(s: State<N>, n: N, m: N, k: N)
    requires Twins(s, n, m) && k in s.info
    ensures Twins(WithTask(s, k), n, m)
  {
  }

  /** The first is lost and its task completes: that makes the other one idle while it runs its task. */
  lemma WrongNodeGoesIdle<N>(s: State<N>, n: N, m: N)
    requires Twins(s, n, m) && s.pending == multiset{n, m} && n != m
    ensures Entries(s, s.info[n].id) && var s1 := Removed(s, s.info[n].id, 1);
      && Entries(s1, Reported(s1, n)) && var s2 := Fired(s1, n, false, 1);
      n in s1.pending && Ready(s2, m) && s2.pending[m] == 1 && s2.info[m].id == s.info[m].id
  {
    var s1 := Removed(s, s.info[n].id, 1);
    assert Reported(s1, n) == s.info[m].id;
  }

  ghost function LostAndRebooked<N>(id: string, n: N, m: N): seq<Event<N>> {
    [Leaves(id, 1)] + [Fires(n, false, 1)] + [StartOn(id + ERROR_SUFFIX, m)]
  }

  lemma WrongNodeIsBooked<N>(cfg: Config, events: seq<Event<N>>, n: N, m: N)
    requires var s := Run(cfg, events); Twins(s, n, m) && s.pending == multiset{n, m} && n != m
    ensures var id := Run(cfg, events).info[n].id;
      Run(cfg, events + LostAndRebooked(id, n, m)).pending[m] == 2
  {
    var id := Run(cfg, events).info[n].id;
    var fired := events + [Leaves(id, 1)] + [Fires(n, false, 1)];
    WrongNodeBecomesIdle(cfg, events, n, m);
    TaskStarts(cfg, fired, m);
    assert fired + [StartOn(id + ERROR_SUFFIX, m)] == events + LostAndRebooked(id, n, m);
  }

  lemma WrongNodeBecomesIdle<N>(cfg: Config, events: seq<Event<N>>, n: N, m: N)
    requires var s := Run(cfg, events); Twins(s, n, m) && s.pending == multiset{n, m} && n != m
    ensures var id := Run(cfg, events).info[n].id;
      var s := Run(cfg, events + [Leaves(id, 1)] + [Fires(n, false, 1)]);
      Ready(s, m) && s.pending[m] == 1 && s.info[m].id == id + ERROR_SUFFIX
  {
    var s := Run(cfg, events);
    var id := s.info[n].id;
    WrongNodeGoesIdle(s, n, m);
    RunExtends(cfg, events, Leaves(id, 1));
    RunExtends(cfg, events + [Leaves(id, 1)], Fires(n, false, 1));
  }

  /** The run: both workers get a task, the first is lost, its task completes, and the second gets another. */
  lemma TwinsDoubleBook<N>(cfg: Config, id: string, n: N, m: N) returns (events: seq<Event<N>>)
    requires n != m
    ensures JoinedIds(events) == {id, id + ERROR_SUFFIX} && Run(cfg, events).pending[m] == 2
  {
    var working := TwinsStart(cfg, id, n, m);
    events := working + LostAndRebooked(id, n, m);
    WrongNodeIsBooked(cfg, working, n, m);
    JoinedIdsConcat(working, LostAndRebooked(id, n, m));
    JoinedIdsConcat([Leaves(id, 1)], [Fires(n, false, 1)]);
    JoinedIdsConcat([Leaves(id, 1)] + [Fires(n, false, 1)], [StartOn(id + ERROR_SUFFIX, m)]);
  }

  /** Workers with ids among these are never given a second task, in any run, exactly when no id is another one with
      the suffix of the made-up ids. */
  lemma NoDoubleBookingIffApart<N(!new)>(cfg: Config, ids: set<string>, n: N, m: N)
    requires n != m
    ensures (forall events: seq<Event<N>> :: JoinedIds(events) <= ids ==> OneEach(Run(cfg, events).pending)) <==>
            Apart(ids)
  {
    if Apart(ids) {
      forall events: seq<Event<N>> | JoinedIds(events) <= ids ensures OneEach(Run(cfg, events).pending) {
        RunKeepsInv(cfg, events, true);
      }
    } else {
      var a, id :| a in ids && id in ids && a == id + ERROR_SUFFIX;
      var events := TwinsDoubleBook(cfg, id, n, m);
      assert m in Run(cfg, events).pending;
    }
  }
}
