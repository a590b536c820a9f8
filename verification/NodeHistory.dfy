/** What a run of the cluster says about each of its nodes: which task and snapshot it shows, and how long a node that
    was lost or found flaky is set aside. */
module NodeHistory {
  import opened Wrappers
  import opened TaskGroups
  import opened ClusterSpec
  import opened ClusterRuns

  // -------------------------------------------------------------------------------------------
  // The task and the snapshot a node shows.

  datatype Tag = Tag(job: string, task: string, snapshotId: string)

  ghost function TagOf(node: Node): Tag { Tag(node.runningJob, node.runningTask, node.snapshotId) }

  /** The task that a batch gives a node. */
  ghost function GivenTo<N>(batch: seq<Assignment<N>>, n: N): Option<TaskDef> {
    if batch == [] then None else
    var a := batch[|batch| - 1];
    if a.node == n then Some(a.task) else GivenTo(batch[..|batch| - 1], n)
  }

  /** The node was found flaky long enough ago. */
  ghost predicate TriedAgain<N>(s: State<N>, cfg: Config, e: Event<N>, n: N) {
    && e.Cleans? && e.id in s.suspended && s.suspended[e.id] == n && n in s.info
    && s.info[n].timeFlaky != 0 && e.now - s.info[n].timeFlaky > cfg.maxFlaky
  }

  /** What an event does to the tag of a node: a start sets it, a completion of its own that finds the node current
      clears the task, and another try after being flaky clears the snapshot. */
  ghost function Retagged<N>(s: State<N>, cfg: Config, e: Event<N>, n: N, t: Tag): Tag {
    match e
    case Starts(_, _, batch) =>
      (match GivenTo(batch, n)
       case Some(task) => Tag(task.ref.job, task.ref.task, task.snapshotId)
       case None => t)
    case Fires(m, _, _) => if m == n && n in s.info && IsCurrent(s, n) then Tag("", "", t.snapshotId) else t
    case Cleans(_, _) => if TriedAgain(s, cfg, e, n) then Tag(t.job, t.task, "") else t
    case _ => t
  }

  ghost function LastTag<N>(cfg: Config, events: seq<Event<N>>, n: N): Tag {
    if events == [] then Tag("", "", "") else
    var init, e := events[..|events| - 1], events[|events| - 1];
    var s, t := Run(cfg, init), LastTag(cfg, init, n);
    if Enabled(s, e) then Retagged(s, cfg, e, n, t) else t
  }

  ghost predicate Shows<N>(s: State<N>, n: N, t: Tag) { t == if n in s.info then TagOf(s.info[n]) else Tag("", "", "") }

  /** Of `s1`, a node of the batch shows its task, and any other is as it was in `s`. */
  ghost predicate ShowsBatch<N>(s: State<N>, s1: State<N>, batch: seq<Assignment<N>>, n: N) {
    && (n in s1.info <==> n in s.info)
    && (n in s.info ==> match GivenTo(batch, n)
        case Some(task) => TagOf(s1.info[n]) == Tag(task.ref.job, task.ref.task, task.snapshotId)
        case None => s1.info[n] == s.info[n])
  }

  lemma BookedShows<N>(s: State<N>, s1: State<N>, batch: seq<Assignment<N>>, n: N)
    requires batch != [] && ShowsBatch(s, s1, batch[..|batch| - 1], n)
    requires var a := batch[|batch| - 1]; a.node in s1.info && s1.info[a.node].snapshotId in s1.groups
    ensures var a := batch[|batch| - 1]; ShowsBatch(s, Booked(s1, a.node, a.task), batch, n)
  {
  }

  lemma {:induction false} BookedAllShows<N>(s: State<N>, batch: seq<Assignment<N>>, n: N)
    requires Inv(s, false) && FitBatch(s, s.groups, batch, false)
    ensures ShowsBatch(s, BookedAll(s, batch), batch, n)
  {
    if batch != [] {
      var init := batch[..|batch| - 1];
      FitPrefix(s, batch, |batch| - 1, false);
      BookedAllShows(s, init, n);
      LastIsBooked(s, batch);
      BookedShows(s, BookedAll(s, init), batch, n);
    }
  }

  lemma LastIsBooked<N>(s: State<N>, batch: seq<Assignment<N>>)
    requires Inv(s, false) && FitBatch(s, s.groups, batch, false) && batch != []
    ensures var s1, a := BookedAll(s, batch[..|batch| - 1]), batch[|batch| - 1];
      && a.node in s1.info && s1.info[a.node].snapshotId in s1.groups
      && BookedAll(s, batch) == Booked(s1, a.node, a.task)
  {
    var init, a := batch[..|batch| - 1], batch[|batch| - 1];
    LastIsFit(s, batch, false);
    BookedAllKeepsInv(s, init, false);
    OneMoreBooked(s, BookedAll(s, init), Nodes(init), a.node, a.task, false);
  }

  lemma {:induction false} GivenIsFit<N>(s: State<N>, gs: Groups<N>, batch: seq<Assignment<N>>, n: N)
    requires FitBatch(s, gs, batch, false) && GivenTo(batch, n).Some?
    ensures n in s.info
  {
    if batch[|batch| - 1].node != n { GivenIsFit(s, gs, batch[..|batch| - 1], n); }
  }

  lemma StartsShow<N>(s: State<N>, cfg: Config, order: seq<string>, tasks: seq<TaskDef>, batch: seq<Assignment<N>>,
                      n: N, t: Tag)
    requires Inv(s, false) && AssignedInTurn(s, order, tasks, batch) && Shows(s, n, t)
    ensures Shows(Started(s, batch), n, Retagged(s, cfg, Starts(order, tasks, batch), n, t))
  {
    BatchIsReady(s, order, tasks, batch, false);
    var s1 := s.(groups := Left(s.groups, batch));
    BookedAllShows(s1, batch, n);
    if GivenTo(batch, n).Some? { GivenIsFit(s1, s1.groups, batch, n); }
  }

  lemma FiresShow<N>(s: State<N>, cfg: Config, m: N, flaky: bool, now: nat, n: N, t: Tag)
    requires Inv(s, true) && m in s.info && Entries(s, Reported(s, m)) && Shows(s, n, t)
    ensures Shows(Fired(s, m, flaky, now), n, Retagged(s, cfg, Fires(m, flaky, now), n, t))
  {
    if !IsCurrent(s, m) { ApartIsUntaken(s, m); }
  }

  lemma JoinsShow<N>(s: State<N>, cfg: Config, id: string, m: N, n: N, t: Tag)
    requires Entries(s, id) && m !in s.info && Shows(s, n, t)
    ensures Shows(Added(s, cfg, id, m), n, t)
  {
  }

  lemma CleansShow<N>(s: State<N>, cfg: Config, id: string, now: nat, n: N, t: Tag)
    requires MapsOk(s) && Entries(s, id) && Shows(s, n, t)
    ensures Shows(Cleaned(s, cfg, id, now), n, Retagged(s, cfg, Cleans(id, now), n, t))
  {
  }

  lemma LeavesShow<N>(s: State<N>, id: string, now: nat, n: N, t: Tag)
    requires Entries(s, id) && Shows(s, n, t)
    ensures Shows(Removed(s, id, now), n, t)
  {
  }

  lemma ReadiesShow<N>(s: State<N>, m: N, n: N, t: Tag)
    requires m in s.info && Shows(s, n, t)
    ensures Shows(BecameReady(s, m), n, t)
  {
  }

  lemma NextShows<N>(s: State<N>, cfg: Config, e: Event<N>, n: N, t: Tag)
    requires Inv(s, true) && Enabled(s, e) && Defined(s, e) && Shows(s, n, t)
    ensures Shows(Next(s, cfg, e), n, Retagged(s, cfg, e, n, t))
  {
    match e
    case Starts(order, tasks, batch) =>
      WeakerInv(s, true);
      StartsShow(s, cfg, order, tasks, batch, n, t);
    case Fires(m, flaky, now) => FiresShow(s, cfg, m, flaky, now, n, t);
    case Joins(id, m) => JoinsShow(s, cfg, id, m, n, t);
    case Leaves(id, now) => LeavesShow(s, id, now, n, t);
    case Cleans(id, now) => CleansShow(s, cfg, id, now, n, t);
    case Readies(m) => ReadiesShow(s, m, n, t);
  }

  lemma ApartSooner<N>(events: seq<Event<N>>)
    requires events != [] && Apart(JoinedIds(events))
    ensures Apart(JoinedIds(events[..|events| - 1]))
  {
  }

  /** In every run of workers with ids apart, a node shows the task last started on it until a completion of its own
      finds it current, and the snapshot of that task until it is tried again after being flaky. */
  lemma {:induction false} NodeShowsLast<N>(cfg: Config, events: seq<Event<N>>, n: N)
    requires Apart(JoinedIds(events))
    ensures Shows(Run(cfg, events), n, LastTag(cfg, events, n))
  {
    if events != [] {
      var init, e := events[..|events| - 1], events[|events| - 1];
      ApartSooner(events);
      NodeShowsLast(cfg, init, n);
      RunKeepsInv(cfg, init, true);
      var s := Run(cfg, init);
      if Enabled(s, e) {
        WeakerInv(s, true);
        NextKeepsInv(s, cfg, e, false);
        NextShows(s, cfg, e, n, LastTag(cfg, init, n));
      }
    }
  }

  // -------------------------------------------------------------------------------------------
  // Nodes set aside.

  /** The node is suspended, and was lost or found flaky at these times. */
  ghost predicate Aside<N>(s: State<N>, n: N, id: string, lost: nat, flaky: nat) {
    && n in s.info && s.info[n].id == id && id in s.suspended && s.suspended[id] == n
    && s.info[n].timeLost == lost && s.info[n].timeFlaky == flaky && (lost > 0 || flaky > 0)
  }

  /** What may end that: the node is lost, is back from being lost, or was away for too long. */
  ghost predicate MayEnd<N>(cfg: Config, e: Event<N>, id: string, lost: nat, flaky: nat) {
    match e
    case Leaves(k, _) => k == id
    case Joins(k, _) => k == id && lost > 0
    case Cleans(k, now) => k == id && if lost > 0 then now - lost > cfg.maxLost else now - flaky > cfg.maxFlaky
    case _ => false
  }

  lemma StartsKeepAside<N>(s: State<N>, order: seq<string>, tasks: seq<TaskDef>, batch: seq<Assignment<N>>, n: N,
                           id: string, lost: nat, flaky: nat)
    requires Inv(s, false) && AssignedInTurn(s, order, tasks, batch) && Aside(s, n, id, lost, flaky)
    ensures Aside(Started(s, batch), n, id, lost, flaky)
  {
    StartedKeepsInv(s, order, tasks, batch, false);
    assert SameStanding(Started(s, batch).info[n], s.info[n]);
  }

  lemma FiresKeepAside<N>(s: State<N>, m: N, firesFlaky: bool, now: nat, n: N, id: string, lost: nat, flaky: nat)
    requires MapsOk(s) && m in s.info && Entries(s, Reported(s, m)) && Aside(s, n, id, lost, flaky)
    ensures Aside(Fired(s, m, firesFlaky, now), n, id, lost, flaky)
  {
  }

  lemma JoinsKeepAside<N>(s: State<N>, cfg: Config, k: string, m: N, n: N, id: string, lost: nat, flaky: nat)
    requires MapsOk(s) && Entries(s, k) && m !in s.info && Aside(s, n, id, lost, flaky) && (k == id ==> lost == 0)
    ensures Aside(Added(s, cfg, k, m), n, id, lost, flaky)
  {
  }

  lemma LeavesKeepAside<N>(s: State<N>, k: string, now: nat, n: N, id: string, lost: nat, flaky: nat)
    requires MapsOk(s) && Entries(s, k) && Aside(s, n, id, lost, flaky) && k != id
    ensures Aside(Removed(s, k, now), n, id, lost, flaky)
  {
  }

  lemma CleansKeepAside<N>(s: State<N>, cfg: Config, k: string, now: nat, n: N, id: string, lost: nat, flaky: nat)
    requires MapsOk(s) && Entries(s, k) && Aside(s, n, id, lost, flaky)
    requires !MayEnd<N>(cfg, Cleans(k, now), id, lost, flaky)
    ensures Aside(Cleaned(s, cfg, k, now), n, id, lost, flaky)
  {
  }

  lemma NextKeepsAside<N>(s: State<N>, cfg: Config, e: Event<N>, n: N, id: string, lost: nat, flaky: nat)
    requires Inv(s, false) && Enabled(s, e) && Defined(s, e) && Aside(s, n, id, lost, flaky)
    requires !MayEnd(cfg, e, id, lost, flaky)
    ensures Aside(Next(s, cfg, e), n, id, lost, flaky)
  {
    match e
    case Starts(order, tasks, batch) => StartsKeepAside(s, order, tasks, batch, n, id, lost, flaky);
    case Fires(m, firesFlaky, now) => FiresKeepAside(s, m, firesFlaky, now, n, id, lost, flaky);
    case Joins(k, m) => JoinsKeepAside(s, cfg, k, m, n, id, lost, flaky);
    case Leaves(k, now) => LeavesKeepAside(s, k, now, n, id, lost, flaky);
    case Cleans(k, now) => CleansKeepAside(s, cfg, k, now, n, id, lost, flaky);
    case Readies(_) =>
  }

  /** However a run goes on, a node that is set aside stays so, and is given no task, until it is lost, is back from
      being lost, or the time for which such a node is kept aside is over. */
  lemma {:induction false} StaysAside<N>(cfg: Config, events: seq<Event<N>>, more: seq<Event<N>>, n: N, id: string,
                                         lost: nat, flaky: nat)
    requires Aside(Run(cfg, events), n, id, lost, flaky)
    requires forall i :: 0 <= i < |more| ==> !MayEnd(cfg, more[i], id, lost, flaky)
    ensures Aside(Run(cfg, events + more), n, id, lost, flaky)
  {
    if more == [] {
      assert events + more == events;
    } else {
      var init, e := more[..|more| - 1], more[|more| - 1];
      assert (events + more)[..|events + more| - 1] == events + init;
      StaysAside(cfg, events, init, n, id, lost, flaky);
      var s := Run(cfg, events + init);
      RunKeepsInv(cfg, events + init, false);
      if Enabled(s, e) {
        NextKeepsInv(s, cfg, e, false);
        NextKeepsAside(s, cfg, e, n, id, lost, flaky);
      }
    }
  }

  lemma {:induction false} AsideGetsNoTask<N>(cfg: Config, events: seq<Event<N>>, n: N, id: string, lost: nat,
                                              flaky: nat, order: seq<string>, tasks: seq<TaskDef>,
                                              batch: seq<Assignment<N>>)
    requires Aside(Run(cfg, events), n, id, lost, flaky) && AssignedInTurn(Run(cfg, events), order, tasks, batch)
    ensures n !in Nodes(batch)
  {
    RunKeepsInv(cfg, events, false);
    BatchIsFit(Run(cfg, events), order, tasks, batch, false);
    NotAmong(batch, n);
  }

  /** A completion after a runner error sets a healthy node aside as flaky; after any other it stays healthy. */
  lemma FlakyIsSetAside<N>(cfg: Config, events: seq<Event<N>>, n: N, flaky: bool, now: nat)
    requires var s := Run(cfg, events); n in s.pending && Healthy(s, n) && now > 0
    ensures var s, s' := Run(cfg, events), Run(cfg, events + [Fires(n, flaky, now)]);
      if flaky then Aside(s', n, s.info[n].id, 0, now) && s.info[n].id !in s'.nodes else Healthy(s', n)
  {
    RunKeepsInv(cfg, events, false);
    FiresIsFired(cfg, events, n, flaky, now);
  }

  /** A known node that is reported gone is set aside as lost, no longer as flaky. */
  lemma LostIsSetAside<N>(cfg: Config, events: seq<Event<N>>, n: N, now: nat)
    requires var s := Run(cfg, events); n in s.info && Live(s, n) && now > 0
    ensures var s, s' := Run(cfg, events), Run(cfg, events + [Leaves(Run(cfg, events).info[n].id, now)]);
      Aside(s', n, s.info[n].id, now, 0) && s.info[n].id !in s'.nodes
  {
    var s := Run(cfg, events);
    RunKeepsInv(cfg, events, false);
    LeavesIsRemoved(cfg, events, s.info[n].id, now);
  }

  /** A lost node that is reported back is the same node again, at once unless its readiness is still awaited. */
  lemma LostComesBack<N>(cfg: Config, events: seq<Event<N>>, n: N, id: string, lost: nat, other: N)
    requires Aside(Run(cfg, events), n, id, lost, 0) && other !in Run(cfg, events).info
    ensures var s, s' := Run(cfg, events), Run(cfg, events + [Joins(id, other)]);
      if s.info[n].readyCh == Open then s' == s
      else
        && id in s'.nodes && s'.nodes[id] == n && id !in s'.suspended
        && s'.info == s.info[n := s.info[n].(timeLost := 0)]
  {
    JoinsIsAdded(cfg, events, id, other);
  }

  /** Once its time is over, a lost node is forgotten, */
  lemma LostIsForgotten<N>(cfg: Config, events: seq<Event<N>>, n: N, id: string, lost: nat, now: nat)
    requires Aside(Run(cfg, events), n, id, lost, 0) && now - lost > cfg.maxLost
    ensures var s, s' := Run(cfg, events), Run(cfg, events + [Cleans(id, now)]);
      && id !in s'.nodes && id !in s'.suspended && s.info[n].snapshotId in s'.groups
      && id !in s'.groups[s.info[n].snapshotId].idle && id !in s'.groups[s.info[n].snapshotId].busy
  {
    RunKeepsInv(cfg, events, false);
    RunExtends(cfg, events, Cleans(id, now));
  }

  /** and a flaky node is treated like a new one: healthy at once or once it is ready. */
  lemma FlakyIsTriedAgain<N>(cfg: Config, events: seq<Event<N>>, n: N, id: string, flaky: nat, now: nat)
    requires Aside(Run(cfg, events), n, id, 0, flaky) && now - flaky > cfg.maxFlaky
    ensures var s' := Run(cfg, events + [Cleans(id, now)]);
      && n in s'.info && s'.info[n].id == id && s'.info[n].timeFlaky == 0 && s'.info[n].snapshotId == ""
      && if cfg.hasReadyFn then id in s'.suspended && s'.suspended[id] == n && s'.info[n].readyCh == Open
         else id in s'.nodes && s'.nodes[id] == n
  {
    RunKeepsInv(cfg, events, false);
    RunExtends(cfg, events, Cleans(id, now));
  }

  /** A worker that is new to the cluster is idle, and healthy at once or suspended until it is ready. */
  lemma NewNodeJoins<N>(cfg: Config, events: seq<Event<N>>, id: string, n: N)
    requires var s := Run(cfg, events); n !in s.info && Untaken(s, id)
    ensures var s, s' := Run(cfg, events), Run(cfg, events + [Joins(id, n)]);
      && s'.info.Keys == s.info.Keys + {n} && (forall m <- s.info :: s'.info[m] == s.info[m])
      && s'.info[n] == Node(id, "", "", "", 0, 0, if cfg.hasReadyFn then Open else Absent)
      && (if cfg.hasReadyFn then s'.nodes == s.nodes && s'.suspended == s.suspended[id := n]
          else s'.nodes == s.nodes[id := n] && s'.suspended == s.suspended)
      && "" in s'.groups && id in s'.groups[""].idle && s'.groups[""].idle[id] == n
  {
    JoinsIsAdded(cfg, events, id, n);
  }

  /** Reports of a known node being present, a flaky one included, and of an unknown one being gone change nothing. */
  lemma SpuriousReports<N>(cfg: Config, events: seq<Event<N>>, id: string, n: N, now: nat)
    requires n !in Run(cfg, events).info && now > 0
    ensures var s := Run(cfg, events);
      && (id in s.nodes ==> Run(cfg, events + [Joins(id, n)]) == s)
      && (id in s.suspended && s.suspended[id] in s.info && s.info[s.suspended[id]].timeLost == 0 ==>
            Run(cfg, events + [Joins(id, n)]) == s)
      && (Untaken(s, id) ==> Run(cfg, events + [Leaves(id, now)]) == s)
  {
    RunKeepsInv(cfg, events, false);
    JoinsIsAdded(cfg, events, id, n);
    LeavesIsRemoved(cfg, events, id, now);
  }

  // -------------------------------------------------------------------------------------------
  // Which node a task is given.

  lemma {:induction false} InTurnBefore<N>(s: State<N>, order: seq<string>, tasks: seq<TaskDef>,
                                           batch: seq<Assignment<N>>, i: nat)
    requires AssignedInTurn(s, order, tasks, batch) && i < |batch|
    ensures AssignedInTurn(s, order, tasks, batch[..i + 1])
    decreases |batch|
  {
    if i + 1 < |batch| {
      var init := batch[..|batch| - 1];
      InTurnBefore(s, order, tasks, init, i);
      assert init[..i + 1] == batch[..i + 1];
    } else {
      assert batch[..i + 1] == batch;
    }
  }

  /** A task gets an idle, usable node that last ran its snapshot while there is one, then one that is untouched or last
      ran none, and only then another. */
  lemma PrefersOwnSnapshot<N>(s: State<N>, order: seq<string>, tasks: seq<TaskDef>, batch: seq<Assignment<N>>, i: nat)
    requires AssignedInTurn(s, order, tasks, batch) && i < |batch|
    ensures var a, gs := batch[i], Left(s.groups, batch[..i]);
      && a.group in gs && a.id in gs[a.group].idle && gs[a.group].idle[a.id] == a.node
      && a.node in s.info && !s.info[a.node].Suspended()
      && (a.group != a.task.snapshotId ==> forall k :: !Usable(s, gs, a.task.snapshotId, k))
      && (a.group != a.task.snapshotId && a.group != "" ==> forall k :: !Usable(s, gs, "", k))
  {
    InTurnBefore(s, order, tasks, batch, i);
    assert batch[..i + 1][..i] == batch[..i];
    var a, gs := batch[i], Left(s.groups, batch[..i]);
    FirstOfThree(s, gs, a.task.snapshotId, order, a.group, a.id);
  }

  lemma FirstOfThree<N>(s: State<N>, gs: Groups<N>, snapshotId: string, order: seq<string>, g: string, k: string)
    requires FirstUsable(s, gs, [snapshotId, ""] + order, g, k)
    ensures g != snapshotId ==> forall l :: !Usable(s, gs, snapshotId, l)
    ensures g != snapshotId && g != "" ==> forall l :: !Usable(s, gs, "", l)
  {
    var snapIds := [snapshotId, ""] + order;
    var i :| 0 <= i < |snapIds| && snapIds[i] == g && forall j, l :: 0 <= j < i ==> !Usable(s, gs, snapIds[j], l);
    assert snapIds[0] == snapshotId && snapIds[1] == "";
  }
}
