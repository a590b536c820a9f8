/** When a current node without a task can be given one, over every run of the cluster: exactly when no completion of
    its own found it gone, and it is not back from being lost with its readiness channel just closed. */
module FreeNodes {
  import opened TaskGroups
  import opened ClusterSpec
  import opened ClusterRuns
  import opened ClusterFaults

  // -------------------------------------------------------------------------------------------
  // A node that missed no completion is idle.

  /** The node is idle in group `g`. */
  ghost predicate IdleIn<N>(gs: Groups<N>, g: string, k: string, n: N) {
    g in gs && k in gs[g].idle && gs[g].idle[k] == n
  }

  lemma {:induction false} LeftKeepsIdle<N>(s: State<N>, order: seq<string>, tasks: seq<TaskDef>,
                                            batch: seq<Assignment<N>>, g: string, k: string, n: N)
    requires AssignedInTurn(s, order, tasks, batch) && IdleIn(s.groups, g, k, n) && n !in Nodes(batch)
    ensures IdleIn(Left(s.groups, batch), g, k, n)
    decreases |batch|
  {
    if batch != [] {
      LeftKeepsIdle(s, order, tasks, batch[..|batch| - 1], g, k, n);
    }
  }

  lemma RebookedKeepsIdle<N>(gs: Groups<N>, from: string, to: string, id: string, m: N, g: string, k: string, n: N)
    requires from in gs && IdleIn(gs, g, k, n) && id != k
    ensures IdleIn(Rebooked(gs, from, to, id, m), g, k, n)
  {
    assert g == from ==> k in gs[from].idle - {id};
  }

  /** Of the current nodes, only one has this id. */
  lemma OtherId<N>(s: State<N>, m: N, n: N)
    requires MapsOk(s) && Healthy(s, m) && n in s.info && Live(s, n) && m != n
    ensures s.info[m].id != s.info[n].id
  {
  }

  lemma BookedKeepsIdle<N>(s: State<N>, s1: State<N>, touched: multiset<N>, m: N, task: TaskDef, g: string, n: N)
    requires MapsOk(s) && Healthy(s, m) && n in s.info && Live(s, n) && m != n && OnlyStarted(s, s1, touched)
    requires IdleIn(s1.groups, g, s.info[n].id, n) && s1.info[m].snapshotId in s1.groups
    ensures IdleIn(Booked(s1, m, task).groups, g, s.info[n].id, n)
  {
    OtherId(s, m, n);
    assert SameStanding(s1.info[m], s.info[m]);
    RebookedKeepsIdle(s1.groups, s1.info[m].snapshotId, task.snapshotId, s1.info[m].id, m, g, s.info[n].id, n);
  }

  lemma {:induction false} BookedAllKeepsIdle<N>(s: State<N>, batch: seq<Assignment<N>>, g: string, n: N)
    requires Inv(s, true) && FitBatch(s, s.groups, batch, true) && n in s.info && Live(s, n) && n !in Nodes(batch)
    requires IdleIn(s.groups, g, s.info[n].id, n)
    ensures IdleIn(BookedAll(s, batch).groups, g, s.info[n].id, n)
  {
    if batch != [] {
      var init, a := batch[..|batch| - 1], batch[|batch| - 1];
      LastIsFit(s, batch, true);
      BookedAllKeepsIdle(s, init, g, n);
      BookedAllKeepsInv(s, init, true);
      var s1 := BookedAll(s, init);
      OneMoreBooked(s, s1, Nodes(init), a.node, a.task, true);
      BookedKeepsIdle(s, s1, Nodes(init), a.node, a.task, g, n);
    }
  }

  /** Idle in some group, and not in the middle of a task; or gone. */
  ghost predicate IdleIfFree<N>(s: State<N>, n: N) {
    n in s.info && Live(s, n) && n !in s.pending ==> !IdleNowhere(s.groups, n)
  }

  lemma IdleSomewhere<N>(s: State<N>, n: N) returns (g: string)
    requires IdleAreFree(s, s.groups, true) && IdleIfFree(s, n) && n in s.info && Live(s, n) && n !in s.pending
    ensures IdleIn(s.groups, g, s.info[n].id, n)
  {
    var h, k :| h in s.groups && k in s.groups[h].idle && s.groups[h].idle[k] == n;
    g := h;
  }

  lemma IdleInIsIdle<N>(gs: Groups<N>, g: string, k: string, n: N)
    requires IdleIn(gs, g, k, n)
    ensures !IdleNowhere(gs, n)
  {
  }

  lemma BatchKeepsIdle<N>(s: State<N>, order: seq<string>, tasks: seq<TaskDef>, batch: seq<Assignment<N>>, g: string,
                          n: N)
    requires Inv(s, true) && AssignedInTurn(s, order, tasks, batch) && n in s.info && Live(s, n) && n !in Nodes(batch)
    requires IdleIn(s.groups, g, s.info[n].id, n)
    ensures IdleIn(Started(s, batch).groups, g, s.info[n].id, n)
  {
    LeftKeepsIdle(s, order, tasks, batch, g, s.info[n].id, n);
    BatchIsReady(s, order, tasks, batch, true);
    BookedAllKeepsIdle(s.(groups := Left(s.groups, batch)), batch, g, n);
  }

  lemma StartsKeepIdle<N>(s: State<N>, order: seq<string>, tasks: seq<TaskDef>, batch: seq<Assignment<N>>, n: N)
    requires Inv(s, true) && IdleIfFree(s, n) && AssignedInTurn(s, order, tasks, batch)
    ensures IdleIfFree(Started(s, batch), n)
  {
    var s' := Started(s, batch);
    StartedKeepsInv(s, order, tasks, batch, true);
    if n in s'.info && Live(s', n) && n !in s'.pending {
      assert SameStanding(s'.info[n], s.info[n]);
      var g := IdleSomewhere(s, n);
      BatchKeepsIdle(s, order, tasks, batch, g, n);
      IdleInIsIdle(s'.groups, g, s.info[n].id, n);
    }
  }

  lemma GoneIdleKeepsIdle<N>(gs: Groups<N>, g: string, id: string, m: N, h: string, k: string, n: N)
    requires g in gs && IdleIn(gs, h, k, n) && k != id
    ensures IdleIn(GoneIdle(gs, g, id, m), h, k, n)
  {
  }

  lemma CompletionKeepsLive<N>(s: State<N>, m: N, flaky: bool, now: nat, n: N)
    requires MapsOk(s) && m in s.info && IsCurrent(s, m) && Entries(s, s.info[m].id) && n in s.info && n != m
    ensures var s' := Fired(s, m, flaky, now);
      s'.info[n] == s.info[n] && (Live(s', n) ==> Live(s, n) && s.info[n].id != s.info[m].id)
  {
  }

  lemma CompletionKeepsIdle<N>(s: State<N>, m: N, flaky: bool, now: nat, n: N)
    requires Inv(s, true) && IdleIfFree(s, n) && m in s.pending && IsCurrent(s, m) && Entries(s, s.info[m].id)
    ensures IdleIfFree(Fired(s, m, flaky, now), n)
  {
    var s', g, id := Fired(s, m, flaky, now), s.info[m].snapshotId, s.info[m].id;
    if n == m {
      IdleInIsIdle(s'.groups, g, id, m);
    } else if n in s.info {
      CompletionKeepsLive(s, m, flaky, now, n);
      if Live(s', n) && n !in s'.pending {
        var h := IdleSomewhere(s, n);
        GoneIdleKeepsIdle(s.groups, g, id, m, h, s.info[n].id, n);
        IdleInIsIdle(s'.groups, h, s.info[n].id, n);
      }
    }
  }

  lemma FiresKeepIdle<N>(s: State<N>, m: N, flaky: bool, now: nat, n: N)
    requires Inv(s, true) && IdleIfFree(s, n) && m in s.pending && Entries(s, Reported(s, m))
    requires m == n ==> IsCurrent(s, n)
    ensures IdleIfFree(Fired(s, m, flaky, now), n)
  {
    if IsCurrent(s, m) {
      CompletionKeepsIdle(s, m, flaky, now, n);
    } else {
      ApartIsUntaken(s, m);
      LateCompletionTouchesNoNode(s, m, flaky, now);
    }
  }

  lemma PlacedKeepsIdle<N>(s: State<N>, m: N, node: Node, healthy: bool, n: N)
    requires MapsOk(s) && IdleIfFree(s, n) && m in s.info && Live(s, m) && node.id == s.info[m].id
    ensures IdleIfFree(Placed(s, m, node, healthy), n)
  {
    PlacedSameLive(s, m, node, healthy);
  }

  lemma JoinedKeepsIdle<N>(s: State<N>, cfg: Config, id: string, m: N, n: N)
    requires MapsOk(s) && IdleIfFree(s, n) && m !in s.info && Untaken(s, id) && "" in s.groups
    requires IdleAreFree(s, s.groups, true)
    ensures IdleIfFree(Joined(s, cfg, id, m), n)
  {
    var s' := Joined(s, cfg, id, m);
    if n == m {
      IdleInIsIdle(s'.groups, "", id, m);
    } else if n in s'.info && Live(s', n) && n !in s'.pending {
      var g := IdleSomewhere(s, n);
      IdleInIsIdle(s'.groups, g, s.info[n].id, n);
    }
  }

  lemma AddedKeepsIdle<N>(s: State<N>, cfg: Config, id: string, m: N, n: N)
    requires Inv(s, true) && IdleIfFree(s, n) && m !in s.info && Entries(s, id)
    ensures IdleIfFree(Added(s, cfg, id, m), n)
  {
    if id in s.suspended {
      PlacedKeepsIdle(s, s.suspended[id], s.info[s.suspended[id]].(timeLost := 0), true, n);
    } else if id !in s.nodes {
      JoinedKeepsIdle(s, cfg, id, m, n);
    }
  }

  lemma RemovedKeepsIdle<N>(s: State<N>, id: string, now: nat, n: N)
    requires Inv(s, true) && IdleIfFree(s, n) && Entries(s, id)
    ensures IdleIfFree(Removed(s, id, now), n)
  {
    if id in s.suspended {
      PlacedKeepsIdle(s, s.suspended[id], s.info[s.suspended[id]].(timeLost := now, timeFlaky := 0), false, n);
    } else if id in s.nodes {
      PlacedKeepsIdle(s, s.nodes[id], s.info[s.nodes[id]].(timeLost := now), false, n);
    }
  }

  lemma ReapedKeepsIdle<N>(s: State<N>, m: N, node: Node, n: N)
    requires MapsOk(s) && IdleAreFree(s, s.groups, true) && IdleIfFree(s, n) && node.snapshotId in s.groups
    requires node.id in s.suspended && s.suspended[node.id] == m
    ensures IdleIfFree(s.(info := s.info[m := node], suspended := s.suspended - {node.id},
                          groups := Dropped(s.groups, node.snapshotId, node.id)), n)
  {
    var s' := s.(info := s.info[m := node], suspended := s.suspended - {node.id},
                 groups := Dropped(s.groups, node.snapshotId, node.id));
    if n in s'.info && Live(s', n) && n !in s'.pending {
      assert n != m && Live(s, n) && s.info[n].id != node.id;
      var g := IdleSomewhere(s, n);
      IdleInIsIdle(s'.groups, g, s.info[n].id, n);
    }
  }

  lemma CleanedKeepsIdle<N>(s: State<N>, cfg: Config, id: string, now: nat, n: N)
    requires Inv(s, true) && IdleIfFree(s, n) && Entries(s, id)
    ensures IdleIfFree(Cleaned(s, cfg, id, now), n)
  {
    if id in s.suspended {
      var m := s.suspended[id];
      var node := if s.info[m].readyCh == Open then s.info[m] else s.info[m].(readyCh := Absent);
      if !node.Suspended() {
        PlacedKeepsIdle(s, m, node, true, n);
      } else if node.timeLost != 0 && now - node.timeLost > cfg.maxLost {
        ReapedKeepsIdle(s, m, node, n);
      } else if node.timeFlaky != 0 && now - node.timeFlaky > cfg.maxFlaky {
        var again := node.(timeFlaky := 0, snapshotId := "");
        PlacedKeepsIdle(s, m, if cfg.hasReadyFn then again.(readyCh := Open) else again, !cfg.hasReadyFn, n);
      } else {
        PlacedKeepsIdle(s, m, node, false, n);
      }
    }
  }

  lemma ReadyKeepsIdle<N>(s: State<N>, m: N, n: N)
    requires MapsOk(s) && IdleIfFree(s, n) && m in s.info
    ensures IdleIfFree(BecameReady(s, m), n)
  {
    BecameReadyKeepsMaps(s, m);
  }

  /** A completion of the node that finds it not to be the current one. */
  ghost predicate Misses<N>(s: State<N>, e: Event<N>, n: N) {
    e.Fires? && e.node == n && Enabled(s, e) && n in s.info && !IsCurrent(s, n)
  }

  lemma NextKeepsIdle<N>(s: State<N>, cfg: Config, e: Event<N>, n: N)
    requires Inv(s, true) && IdleIfFree(s, n) && Enabled(s, e) && Defined(s, e) && !Misses(s, e, n)
    ensures IdleIfFree(Next(s, cfg, e), n)
  {
    match e
    case Starts(order, tasks, batch) => StartsKeepIdle(s, order, tasks, batch, n);
    case Fires(m, flaky, now) => FiresKeepIdle(s, m, flaky, now, n);
    case Joins(id, m) => AddedKeepsIdle(s, cfg, id, m, n);
    case Leaves(id, now) => RemovedKeepsIdle(s, id, now, n);
    case Cleans(id, now) => CleanedKeepsIdle(s, cfg, id, now, n);
    case Readies(m) => ReadyKeepsIdle(s, m, n);
  }

  /** At step `k` a completion of the node found it gone. */
  ghost predicate MissesAt<N>(cfg: Config, events: seq<Event<N>>, k: nat, n: N)
    requires k < |events|
  {
    Misses(Run(cfg, events[..k]), events[k], n)
  }

  ghost predicate Missed<N>(cfg: Config, events: seq<Event<N>>, n: N) {
    exists k :: 0 <= k < |events| && MissesAt(cfg, events, k, n)
  }

  lemma MissesSooner<N>(cfg: Config, events: seq<Event<N>>, k: nat, n: N)
    requires k < |events| - 1
    ensures MissesAt(cfg, events, k, n) <==> MissesAt(cfg, events[..|events| - 1], k, n)
  {
    assert events[..|events| - 1][..k] == events[..k];
  }

  lemma MissedBefore<N>(cfg: Config, events: seq<Event<N>>, n: N)
    requires events != []
    ensures Missed(cfg, events, n) <==>
            Missed(cfg, events[..|events| - 1], n) || MissesAt(cfg, events, |events| - 1, n)
  {
    if Missed(cfg, events, n) && !MissesAt(cfg, events, |events| - 1, n) { MissedEarlier(cfg, events, n); }
    if Missed(cfg, events[..|events| - 1], n) { MissedStays(cfg, events, n); }
  }

  lemma MissedEarlier<N>(cfg: Config, events: seq<Event<N>>, n: N)
    requires events != [] && Missed(cfg, events, n) && !MissesAt(cfg, events, |events| - 1, n)
    ensures Missed(cfg, events[..|events| - 1], n)
  {
    var k :| 0 <= k < |events| && MissesAt(cfg, events, k, n);
    MissesSooner(cfg, events, k, n);
  }

  lemma MissedStays<N>(cfg: Config, events: seq<Event<N>>, n: N)
    requires events != [] && Missed(cfg, events[..|events| - 1], n)
    ensures Missed(cfg, events, n)
  {
    var k :| 0 <= k < |events| - 1 && MissesAt(cfg, events[..|events| - 1], k, n);
    MissesSooner(cfg, events, k, n);
  }

  lemma ApartBefore<N>(events: seq<Event<N>>)
    requires Apart(JoinedIds(events)) && events != []
    ensures Apart(JoinedIds(events[..|events| - 1]))
  {
  }

  lemma {:induction false} IdleUnlessMissed<N>(cfg: Config, events: seq<Event<N>>, n: N)
    requires Apart(JoinedIds(events)) && !Missed(cfg, events, n)
    ensures IdleIfFree(Run(cfg, events), n)
  {
    if events != [] {
      var init, e := events[..|events| - 1], events[|events| - 1];
      ApartBefore(events);
      MissedBefore(cfg, events, n);
      IdleUnlessMissed(cfg, init, n);
      RunKeepsInv(cfg, init, true);
      var s := Run(cfg, init);
      if Enabled(s, e) && Defined(s, e) { NextKeepsIdle(s, cfg, e, n); }
    }
  }

  /** A completion that is missed leaves its node stranded. */
  lemma MissingStrands<N>(s: State<N>, cfg: Config, e: Event<N>, n: N)
    requires Inv(s, true) && Misses(s, e, n)
    ensures Defined(s, e) && Stranded(Next(s, cfg, e), n)
  {
    PendingIsNotIdle(s, n);
    ApartIsUntaken(s, n);
    LateCompletionTouchesNoNode(s, n, e.flaky, e.now);
  }

  lemma {:induction false} MissedIsStranded<N>(cfg: Config, events: seq<Event<N>>, n: N)
    requires Apart(JoinedIds(events)) && Missed(cfg, events, n)
    ensures Stranded(Run(cfg, events), n)
  {
    var init, e := events[..|events| - 1], events[|events| - 1];
    ApartBefore(events);
    MissedBefore(cfg, events, n);
    RunKeepsInv(cfg, init, true);
    var s := Run(cfg, init);
    if Misses(s, e, n) {
      MissingStrands(s, cfg, e, n);
    } else {
      MissedIsStranded(cfg, init, n);
      if Enabled(s, e) && Defined(s, e) { NextKeepsStranded(s, cfg, e, n); }
    }
  }

  /** In every run of workers with ids apart, a node that is known and has no task is in no idle set exactly when a
      completion of its own found it gone. */
  lemma StrandedIffMissed<N>(cfg: Config, events: seq<Event<N>>, n: N)
    requires Apart(JoinedIds(events))
    requires var s := Run(cfg, events); n in s.info && Live(s, n) && n !in s.pending
    ensures Stranded(Run(cfg, events), n) <==>
            exists k :: 0 <= k < |events| && MissesAt(cfg, events, k, n)
  {
    if Missed(cfg, events, n) {
      MissedIsStranded(cfg, events, n);
    } else {
      IdleUnlessMissed(cfg, events, n);
    }
  }

  // -------------------------------------------------------------------------------------------
  // A node that became ready while it was lost is not assigned once it is back.

  /** The current node under its id, with its readiness channel still set, and so never assigned. */
  ghost predicate Barred<N>(s: State<N>, n: N) { n in s.info && IsCurrent(s, n) && s.info[n].readyCh != Absent }

  lemma BarredIsSuspended<N>(s: State<N>, n: N)
    requires MapsOk(s) && n in s.info && IsCurrent(s, n)
    ensures Barred(s, n) <==> s.info[n].Suspended()
  {
  }

  /** A lost node is reported present after its readiness channel was closed. */
  ghost predicate BackTooLate<N>(s: State<N>, e: Event<N>, n: N) {
    && e.Joins? && Enabled(s, e) && n in s.info && s.info[n].id == e.id
    && e.id in s.suspended && s.suspended[e.id] == n && s.info[n].timeLost != 0 && s.info[n].readyCh == Closed
  }

  ghost predicate LostBy<N>(e: Event<N>, id: string) { Loses(e, id) && e.now > 0 }

  /** Without a readiness function no channel is ever made. */
  ghost predicate Channels<N>(cfg: Config, info: map<N, Node>) {
    !cfg.hasReadyFn ==> forall m <- info :: info[m].readyCh == Absent
  }

  /** From `s` to `s'` the node kept its id, and stayed barred unless it was lost; it became barred only where
      `back`. */
  ghost predicate KeepsBarred<N>(s: State<N>, s': State<N>, n: N, lost: bool, back: bool) {
    && (n in s.info ==> n in s'.info && s'.info[n].id == s.info[n].id)
    && (Barred(s, n) && !lost ==> Barred(s', n)) && (Barred(s', n) ==> (Barred(s, n) && !lost) || back)
    && (back ==> Barred(s', n))
  }

  lemma StartsKeepBarred<N>(s: State<N>, cfg: Config, order: seq<string>, tasks: seq<TaskDef>,
                            batch: seq<Assignment<N>>, n: N)
    requires Inv(s, false) && Channels(cfg, s.info) && AssignedInTurn(s, order, tasks, batch)
    ensures KeepsBarred(s, Started(s, batch), n, false, false) && Channels(cfg, Started(s, batch).info)
  {
    StartedKeepsInv(s, order, tasks, batch, false);
    var s' := Started(s, batch);
    assert forall m <- s.info :: SameStanding(s'.info[m], s.info[m]);
  }

  lemma CompletedKeepsBarred<N>(s: State<N>, cfg: Config, id: string, flaky: bool, now: nat, pending: multiset<N>, n: N)
    requires MapsOk(s) && Channels(cfg, s.info) && Entries(s, id)
    ensures var s' := Completed(s, id, flaky, now).(pending := pending);
      KeepsBarred(s, s', n, false, false) && Channels(cfg, s'.info)
  {
  }

  lemma AddedKeepsBarred<N>(s: State<N>, cfg: Config, id: string, m: N, n: N)
    requires MapsOk(s) && Channels(cfg, s.info) && Entries(s, id) && m !in s.info
    ensures KeepsBarred(s, Added(s, cfg, id, m), n, false, BackTooLate(s, Joins(id, m), n))
    ensures Channels(cfg, Added(s, cfg, id, m).info)
  {
  }

  lemma RemovedKeepsBarred<N>(s: State<N>, cfg: Config, id: string, now: nat, n: N)
    requires MapsOk(s) && Channels(cfg, s.info) && Entries(s, id)
    ensures KeepsBarred(s, Removed(s, id, now), n, n in s.info && s.info[n].id == id, false)
    ensures Channels(cfg, Removed(s, id, now).info)
  {
  }

  lemma CleanedKeepsBarred<N>(s: State<N>, cfg: Config, id: string, now: nat, n: N)
    requires MapsOk(s) && Channels(cfg, s.info) && Entries(s, id)
    ensures KeepsBarred(s, Cleaned(s, cfg, id, now), n, false, false) && Channels(cfg, Cleaned(s, cfg, id, now).info)
  {
    if id in s.suspended {
      var m := s.suspended[id];
      var node := if s.info[m].readyCh == Open then s.info[m] else s.info[m].(readyCh := Absent);
      if !node.Suspended() {
        PlacedKeepsBarred(s, cfg, m, node, true, n);
      } else if node.timeLost != 0 && now - node.timeLost > cfg.maxLost {
      } else if node.timeFlaky != 0 && now - node.timeFlaky > cfg.maxFlaky {
        var again := node.(timeFlaky := 0, snapshotId := "");
        PlacedKeepsBarred(s, cfg, m, if cfg.hasReadyFn then again.(readyCh := Open) else again, !cfg.hasReadyFn, n);
      } else {
        PlacedKeepsBarred(s, cfg, m, node, false, n);
      }
    }
  }

  lemma PlacedKeepsBarred<N>(s: State<N>, cfg: Config, m: N, node: Node, healthy: bool, n: N)
    requires MapsOk(s) && Channels(cfg, s.info) && node.id in s.suspended && s.suspended[node.id] == m
    requires (healthy ==> node.readyCh == Absent) && (!cfg.hasReadyFn ==> node.readyCh == Absent)
    ensures var s' := Placed(s, m, node, healthy); KeepsBarred(s, s', n, false, false) && Channels(cfg, s'.info)
  {
  }

  lemma ReadyKeepsBarred<N>(s: State<N>, cfg: Config, m: N, n: N)
    requires MapsOk(s) && Channels(cfg, s.info) && m in s.info
    ensures KeepsBarred(s, BecameReady(s, m), n, false, false) && Channels(cfg, BecameReady(s, m).info)
  {
  }

  ghost predicate LosesNode<N>(s: State<N>, e: Event<N>, n: N) { n in s.info && LostBy(e, s.info[n].id) }

  lemma NextKeepsBarred<N>(s: State<N>, cfg: Config, e: Event<N>, n: N)
    requires Inv(s, false) && Channels(cfg, s.info) && Enabled(s, e) && Defined(s, e)
    ensures KeepsBarred(s, Next(s, cfg, e), n, LosesNode(s, e, n), BackTooLate(s, e, n))
    ensures Channels(cfg, Next(s, cfg, e).info)
  {
    match e
    case Starts(order, tasks, batch) => StartsKeepBarred(s, cfg, order, tasks, batch, n);
    case Fires(m, flaky, now) => CompletedKeepsBarred(s, cfg, Reported(s, m), flaky, now, s.pending - multiset{m}, n);
    case Joins(id, m) => AddedKeepsBarred(s, cfg, id, m, n);
    case Leaves(id, now) => RemovedKeepsBarred(s, cfg, id, now, n);
    case Cleans(id, now) => CleanedKeepsBarred(s, cfg, id, now, n);
    case Readies(m) => ReadyKeepsBarred(s, cfg, m, n);
  }

  /** At step `k` the node came back with its channel closed. */
  ghost predicate BackAt<N>(cfg: Config, events: seq<Event<N>>, k: nat, n: N)
    requires k < |events|
  {
    BackTooLate(Run(cfg, events[..k]), events[k], n)
  }

  ghost predicate NotLostSince<N>(events: seq<Event<N>>, k: nat, id: string) {
    forall j :: k < j < |events| ==> !LostBy(events[j], id)
  }

  /** The node came back with its channel closed and was not lost since. */
  ghost predicate CameBackClosed<N>(cfg: Config, events: seq<Event<N>>, n: N, id: string) {
    exists k :: 0 <= k < |events| && BackAt(cfg, events, k, n) && NotLostSince(events, k, id)
  }

  lemma BackSooner<N>(cfg: Config, events: seq<Event<N>>, k: nat, n: N, id: string)
    requires k < |events| - 1
    ensures BackAt(cfg, events, k, n) <==> BackAt(cfg, events[..|events| - 1], k, n)
    ensures NotLostSince(events, k, id) <==>
            NotLostSince(events[..|events| - 1], k, id) && !LostBy(events[|events| - 1], id)
  {
    assert events[..|events| - 1][..k] == events[..k];
  }

  lemma CameBackBefore<N>(cfg: Config, events: seq<Event<N>>, n: N, id: string)
    requires events != []
    ensures CameBackClosed(cfg, events, n, id) <==>
            (CameBackClosed(cfg, events[..|events| - 1], n, id) && !LostBy(events[|events| - 1], id)) ||
            BackAt(cfg, events, |events| - 1, n)
  {
    var init, last := events[..|events| - 1], |events| - 1;
    if BackAt(cfg, events, last, n) {
      assert NotLostSince(events, last, id);
    } else if CameBackClosed(cfg, events, n, id) {
      CameBackEarlier(cfg, events, n, id);
    } else if CameBackClosed(cfg, init, n, id) && !LostBy(events[last], id) {
      CameBackStays(cfg, events, n, id);
    }
  }

  lemma CameBackEarlier<N>(cfg: Config, events: seq<Event<N>>, n: N, id: string)
    requires events != [] && CameBackClosed(cfg, events, n, id) && !BackAt(cfg, events, |events| - 1, n)
    ensures CameBackClosed(cfg, events[..|events| - 1], n, id) && !LostBy(events[|events| - 1], id)
  {
    var k :| 0 <= k < |events| && BackAt(cfg, events, k, n) && NotLostSince(events, k, id);
    BackSooner(cfg, events, k, n, id);
  }

  lemma CameBackStays<N>(cfg: Config, events: seq<Event<N>>, n: N, id: string)
    requires events != [] && CameBackClosed(cfg, events[..|events| - 1], n, id) && !LostBy(events[|events| - 1], id)
    ensures CameBackClosed(cfg, events, n, id)
  {
    var init := events[..|events| - 1];
    var k :| 0 <= k < |init| && BackAt(cfg, init, k, n) && NotLostSince(init, k, id);
    BackSooner(cfg, events, k, n, id);
  }

  lemma {:induction false} RunBars<N>(cfg: Config, events: seq<Event<N>>, n: N, id: string)
    requires var s := Run(cfg, events); n in s.info ==> s.info[n].id == id
    ensures Barred(Run(cfg, events), n) <==> CameBackClosed(cfg, events, n, id)
  {
    if events != [] {
      var init, e := events[..|events| - 1], events[|events| - 1];
      var s := Run(cfg, init);
      RunKeepsInv(cfg, init, false);
      CameBackBefore(cfg, events, n, id);
      RunChannels(cfg, init, n);
      if Enabled(s, e) {
        NextKeepsInv(s, cfg, e, false);
        NextKeepsBarred(s, cfg, e, n);
      }
      RunBars(cfg, init, n, id);
    }
  }

  lemma {:induction false} RunChannels<N>(cfg: Config, events: seq<Event<N>>, n: N)
    ensures Channels(cfg, Run(cfg, events).info)
  {
    if events != [] {
      var init, e := events[..|events| - 1], events[|events| - 1];
      var s := Run(cfg, init);
      RunKeepsInv(cfg, init, false);
      RunChannels(cfg, init, n);
      if Enabled(s, e) {
        NextKeepsInv(s, cfg, e, false);
        NextKeepsBarred(s, cfg, e, n);
      }
    }
  }

  /** In every run, a current node is suspended, and so not assigned, exactly when it last came back from being lost
      with its readiness channel closed and was not lost since. */
  lemma SuspendedIffBackClosed<N>(cfg: Config, events: seq<Event<N>>, n: N)
    requires var s := Run(cfg, events); n in s.info && IsCurrent(s, n)
    ensures var s := Run(cfg, events);
      s.info[n].Suspended() <==>
      exists k :: 0 <= k < |events| && BackAt(cfg, events, k, n) && NotLostSince(events, k, s.info[n].id)
  {
    var s := Run(cfg, events);
    RunKeepsInv(cfg, events, false);
    BarredIsSuspended(s, n);
    RunBars(cfg, events, n, s.info[n].id);
  }

  ghost function LostUntilReady<N>(id: string, n: N, other: N): seq<Event<N>> {
    [Joins(id, n)] + [Leaves(id, 1)] + [Readies(n)] + [Joins(id, other)]
  }

  /** A new node, lost before it was ready. */
  ghost predicate LostUnready<N>(s: State<N>, id: string, n: N) {
    && n in s.info && s.info[n] == Node(id, "", "", "", 1, 0, Open) && n !in s.pending
    && id !in s.nodes && id in s.suspended && s.suspended[id] == n && IdleIn(s.groups, "", id, n)
  }

  lemma JoinsAndIsLost<N>(s: State<N>, cfg: Config, id: string, n: N)
    requires "" in s.groups && Untaken(s, id) && n !in s.info && n !in s.pending && cfg.hasReadyFn
    ensures Entries(s, id) && Entries(Added(s, cfg, id, n), id)
    ensures var s' := Removed(Added(s, cfg, id, n), id, 1); LostUnready(s', id, n) && s'.info.Keys == s.info.Keys + {n}
  {
  }

  lemma ReadyAndBack<N>(s: State<N>, cfg: Config, id: string, n: N, other: N)
    requires LostUnready(s, id, n) && other !in s.info
    ensures Entries(BecameReady(s, n), id) && other !in BecameReady(s, n).info
    ensures var s' := Added(BecameReady(s, n), cfg, id, other);
      Barred(s', n) && n !in s'.pending && s'.info[n].Suspended() && IdleIn(s'.groups, "", id, n)
  {
  }

  /** With a readiness function, after any run, a new worker that is lost before it is ready, becomes ready, and then
      comes back, sits among the healthy nodes, idle and without a task, and is not assigned. */
  lemma ReadyNodeIsBarred<N>(cfg: Config, events: seq<Event<N>>, id: string, n: N, other: N)
    requires var s := Run(cfg, events); Untaken(s, id) && n !in s.info && other !in s.info && n != other
    requires cfg.hasReadyFn
    ensures var s := Run(cfg, events + LostUntilReady(id, n, other));
      && n in s.info && IsCurrent(s, n) && n !in s.pending && s.info[n].Suspended()
      && IdleIn(s.groups, "", id, n)
  {
    var lost := events + [Joins(id, n)] + [Leaves(id, 1)];
    assert lost + [Readies(n)] + [Joins(id, other)] == events + LostUntilReady(id, n, other);
    IsLostUnready(cfg, events, id, n);
    BackWhenReady(cfg, lost, id, n, other);
  }

  lemma BackWhenReady<N>(cfg: Config, lost: seq<Event<N>>, id: string, n: N, other: N)
    requires LostUnready(Run(cfg, lost), id, n) && other !in Run(cfg, lost).info
    ensures var s := Run(cfg, lost + [Readies(n)] + [Joins(id, other)]);
      Barred(s, n) && n !in s.pending && s.info[n].Suspended() && IdleIn(s.groups, "", id, n)
  {
    ReadyAndBack(Run(cfg, lost), cfg, id, n, other);
    RunExtends(cfg, lost, Readies(n));
    RunExtends(cfg, lost + [Readies(n)], Joins(id, other));
  }

  lemma IsLostUnready<N>(cfg: Config, events: seq<Event<N>>, id: string, n: N)
    requires var s := Run(cfg, events); Untaken(s, id) && n !in s.info
    requires cfg.hasReadyFn
    ensures var s' := Run(cfg, events + [Joins(id, n)] + [Leaves(id, 1)]);
      LostUnready(s', id, n) && s'.info.Keys == Run(cfg, events).info.Keys + {n}
  {
    RunKeepsInv(cfg, events, false);
    UnknownIsNowhere(Run(cfg, events), n);
    JoinsAndIsLost(Run(cfg, events), cfg, id, n);
    RunExtends(cfg, events, Joins(id, n));
    RunExtends(cfg, events + [Joins(id, n)], Leaves(id, 1));
  }

  // -------------------------------------------------------------------------------------------
  // Both together.

  /** Some task, offered alone, is given to the node. */
  ghost predicate CanBeGiven<N>(s: State<N>, n: N) {
    n in s.info && exists task: TaskDef, g: string ::
      AssignedInTurn(s, [], [task], [Assignment(task, g, s.info[n].id, n)])
  }

  lemma GivenIsUsable<N>(s: State<N>, task: TaskDef, g: string, n: N)
    requires n in s.info && AssignedInTurn(s, [], [task], [Assignment(task, g, s.info[n].id, n)])
    ensures IdleIn(s.groups, g, s.info[n].id, n) && !s.info[n].Suspended()
  {
    var batch := [Assignment(task, g, s.info[n].id, n)];
    assert batch[..0] == [];
    assert Left(s.groups, batch[..0]) == s.groups;
  }

  lemma UsableIsGiven<N>(s: State<N>, g: string, n: N)
    requires n in s.info && IdleIn(s.groups, g, s.info[n].id, n) && !s.info[n].Suspended()
    ensures CanBeGiven(s, n)
  {
    var id := s.info[n].id;
    var task := TaskDef(TaskRef("", ""), g);
    var batch := [Assignment(task, g, id, n)];
    var snapIds := [task.snapshotId, ""] + [];
    assert batch[..0] == [];
    assert snapIds[0] == g && Usable(s, s.groups, g, id);
    assert FirstUsable(s, s.groups, snapIds, g, id);
    assert AssignedInTurn(s, [], [task], batch[..0]);
    assert AssignedInTurn(s, [], [task], batch);
  }

  /** In every run of workers with ids apart, a current node without a task can be given one exactly when no completion
      of its own found it gone, and it did not last come back with its readiness channel closed. */
  lemma CanBeGivenIff<N>(cfg: Config, events: seq<Event<N>>, n: N)
    requires Apart(JoinedIds(events))
    requires var s := Run(cfg, events); n in s.info && IsCurrent(s, n) && n !in s.pending
    ensures var s := Run(cfg, events);
      CanBeGiven(s, n) <==> !Missed(cfg, events, n) && !CameBackClosed(cfg, events, n, s.info[n].id)
  {
    var s := Run(cfg, events);
    StrandedIffMissed(cfg, events, n);
    SuspendedIffBackClosed(cfg, events, n);
    RunKeepsInv(cfg, events, true);
    if CanBeGiven(s, n) {
      var task: TaskDef, g: string :| AssignedInTurn(s, [], [task], [Assignment(task, g, s.info[n].id, n)]);
      GivenIsUsable(s, task, g, n);
      IdleInIsIdle(s.groups, g, s.info[n].id, n);
    } else if !Stranded(s, n) && !s.info[n].Suspended() {
      var g := IdleSomewhere(s, n);
      UsableIsGiven(s, g, n);
    }
  }
}
