/** The scheduler's view of its worker nodes as a value, and the invariant that keeps a node from running two
    tasks. `N` stands for the identity of a node state: a worker that is reaped and comes back gets a new one. */
module ClusterSpec {
  import opened TaskGroups

  /** A node's readiness channel: absent, open, or closed by the readiness loop. */
  datatype Channel = Absent | Open | Closed

  /** Time 0 is "not set". */
  datatype Node = Node(id: string, runningJob: string, runningTask: string, snapshotId: string,
                       timeLost: nat, timeFlaky: nat, readyCh: Channel)
  {
    predicate Suspended() { readyCh != Absent || timeLost != 0 || timeFlaky != 0 }
  }

  /** Nodes by the snapshot they last ran with, keyed by node id. */
  datatype Group<N> = Group(idle: map<string, N>, busy: map<string, N>)

  type Groups<N> = map<string, Group<N>>

  datatype TaskDef = TaskDef(ref: TaskRef, snapshotId: string)

  const ERROR_SUFFIX := ":ERROR"

  /** `info` holds every node state ever made; `pending` those captured by completion callbacks yet to fire. */
  datatype State<N> = State(nodes: map<string, N>, suspended: map<string, N>, groups: Groups<N>, numRunning: int,
                            info: map<N, Node>, pending: multiset<N>)

  // -------------------------------------------------------------------------------------------
  // The invariant.

  ghost predicate Live<N>(s: State<N>, n: N)
    requires n in s.info
  {
    var id := s.info[n].id;
    (id in s.nodes && s.nodes[id] == n) || (id in s.suspended && s.suspended[id] == n)
  }

  ghost predicate Keyed<N>(m: map<string, N>, info: map<N, Node>) {
    forall k <- m :: m[k] in info && info[m[k]].id == k
  }

  ghost predicate MapsOk<N>(s: State<N>) {
    && Keyed(s.nodes, s.info) && Keyed(s.suspended, s.info)
    && (forall k <- s.nodes :: s.info[s.nodes[k]].timeLost == 0 && s.info[s.nodes[k]].timeFlaky == 0)
    && (forall k <- s.suspended :: k !in s.nodes && s.info[s.suspended[k]].Suspended())
    && (forall k <- s.suspended :: s.info[s.suspended[k]].timeLost == 0 || s.info[s.suspended[k]].timeFlaky == 0)
  }

  /** Whatever sits idle is a current incarnation unless it was lost for good. Here and below, `apart` says that no
      worker's id is the made-up id of another; then what is idle is not running a task either. */
  ghost predicate IdleAreFree<N>(s: State<N>, gs: Groups<N>, apart: bool) {
    forall g, k :: g in gs && k in gs[g].idle ==>
      var n := gs[g].idle[k];
      n in s.info && s.info[n].id == k && (apart ==> n !in s.pending) && (Live(s, n) || s.info[n].timeLost != 0)
  }

  /** No node state is idle in two groups. */
  ghost predicate IdleOnce<N>(gs: Groups<N>) {
    forall g, h, k ::
      g in gs && h in gs && k in gs[g].idle && k in gs[h].idle && gs[g].idle[k] == gs[h].idle[k] ==> g == h
  }

  ghost predicate HasGroup<N>(gs: Groups<N>, node: Node) {
    node.snapshotId in gs &&
    (node.snapshotId == "" || node.id in gs[node.snapshotId].idle || node.id in gs[node.snapshotId].busy)
  }

  /** The group of a current node's snapshot exists. */
  ghost predicate Grouped<N>(s: State<N>, gs: Groups<N>) {
    "" in gs && forall n <- s.info :: Live(s, n) ==> HasGroup(gs, s.info[n])
  }

  ghost predicate GroupsOk<N>(s: State<N>, gs: Groups<N>, apart: bool) {
    IdleAreFree(s, gs, apart) && (apart ==> IdleOnce(gs)) && Grouped(s, gs)
  }

  /** The counter counts the outstanding tasks; with ids kept apart, a node state has at most one. */
  ghost predicate Counted<N>(s: State<N>, apart: bool) {
    s.numRunning == |s.pending| && forall n <- s.pending :: n in s.info && (apart ==> s.pending[n] == 1)
  }

  ghost predicate Apart(ids: set<string>) { forall a, b :: a in ids && b in ids ==> a != b + ERROR_SUFFIX }

  ghost predicate IdsWithin<N>(info: map<N, Node>, ids: set<string>) { forall n <- info :: info[n].id in ids }

  /** No node's id is the one made up for another. */
  ghost predicate NoTwins<N>(info: map<N, Node>) {
    forall m, n :: m in info && n in info ==> info[m].id != info[n].id + ERROR_SUFFIX
  }

  /** The node with this id, if there is one in `m`, is known under that id and its group exists. */
  ghost predicate Entry<N>(s: State<N>, m: map<string, N>, id: string) {
    id in m ==> m[id] in s.info && s.info[m[id]].id == id && s.info[m[id]].snapshotId in s.groups
  }

  ghost predicate Entries<N>(s: State<N>, id: string) {
    Entry(s, s.nodes, id) && Entry(s, s.suspended, id) && !(id in s.nodes && id in s.suspended) && "" in s.groups
  }

  lemma InvEntries<N>(s: State<N>, id: string)
    requires MapsOk(s) && Grouped(s, s.groups)
    ensures Entries(s, id)
  {
    if id in s.nodes { assert Live(s, s.nodes[id]); }
    if id in s.suspended { assert Live(s, s.suspended[id]); }
  }

  ghost predicate Inv<N>(s: State<N>, apart: bool) {
    MapsOk(s) && GroupsOk(s, s.groups, apart) && Counted(s, apart) && (apart ==> NoTwins(s.info))
  }

  // -------------------------------------------------------------------------------------------
  // Picking nodes for a batch of tasks.

  ghost predicate Usable<N>(s: State<N>, gs: Groups<N>, g: string, k: string) {
    g in gs && k in gs[g].idle && gs[g].idle[k] in s.info && !s.info[gs[g].idle[k]].Suspended()
  }

  /** `g` is the first group in `snapIds` with a usable idle node, and `k` names such a node there. */
  ghost predicate FirstUsable<N>(s: State<N>, gs: Groups<N>, snapIds: seq<string>, g: string, k: string) {
    && Usable(s, gs, g, k)
    && exists i :: 0 <= i < |snapIds| && snapIds[i] == g && forall j, l :: 0 <= j < i ==> !Usable(s, gs, snapIds[j], l)
  }

  function MakeBusy<N>(gs: Groups<N>, g: string, k: string): Groups<N>
    requires g in gs && k in gs[g].idle
  {
    gs[g := Group(gs[g].idle - {k}, gs[g].busy[k := gs[g].idle[k]])]
  }

  /** A task and the idle node it was given: group, node id and node state. */
  datatype Assignment<N> = Assignment(task: TaskDef, group: string, id: string, node: N)

  /** The groups left after a batch of assignments. */
  ghost function Left<N>(gs: Groups<N>, batch: seq<Assignment<N>>): Groups<N> {
    if batch == [] then gs else
    var before, a := Left(gs, batch[..|batch| - 1]), batch[|batch| - 1];
    if a.group in before && a.id in before[a.group].idle then MakeBusy(before, a.group, a.id) else before
  }

  /** Each task in turn gets a node from what is left: one of its own snapshot if possible, else an untouched one,
      else any, the other groups being tried in the order `order`. */
  ghost predicate AssignedInTurn<N>(s: State<N>, order: seq<string>, tasks: seq<TaskDef>, batch: seq<Assignment<N>>)
    decreases |batch|
  {
    |batch| <= |tasks| &&
    (batch == [] ||
     var n := |batch| - 1;
     var before, a := Left(s.groups, batch[..n]), batch[n];
     && AssignedInTurn(s, order, tasks, batch[..n]) && a.task == tasks[n]
     && FirstUsable(s, before, [a.task.snapshotId, ""] + order, a.group, a.id) && a.node == before[a.group].idle[a.id])
  }

  /** Not suspended, and the current node under its id. */
  ghost predicate Healthy<N>(s: State<N>, n: N) {
    n in s.info && !s.info[n].Suspended() && s.info[n].id in s.nodes && s.nodes[s.info[n].id] == n
  }

  /** Healthy and, with ids kept apart, without a task and no longer idle. */
  ghost predicate Fit<N>(s: State<N>, gs: Groups<N>, n: N, apart: bool) {
    Healthy(s, n) && (apart ==> n !in s.pending && IdleNowhere(gs, n))
  }

  ghost predicate IdleNowhere<N>(gs: Groups<N>, n: N) {
    forall g, k :: g in gs && k in gs[g].idle ==> gs[g].idle[k] != n
  }

  /** What a batch guarantees: each node is fit to run a task and, with ids kept apart, none is used twice. */
  ghost predicate FitBatch<N>(s: State<N>, gs: Groups<N>, batch: seq<Assignment<N>>, apart: bool) {
    && (forall i :: 0 <= i < |batch| ==> Fit(s, gs, batch[i].node, apart) && s.info[batch[i].node].id == batch[i].id)
    && (apart ==> forall i, j :: 0 <= i < j < |batch| ==> batch[i].node != batch[j].node)
  }

  /** `gs'` has no idle node that `gs` has not, and loses no node altogether. */
  ghost predicate Shrinks<N>(gs: Groups<N>, gs': Groups<N>) {
    && gs'.Keys == gs.Keys
    && (forall g, k :: g in gs' && k in gs'[g].idle ==> k in gs[g].idle && gs'[g].idle[k] == gs[g].idle[k])
    && (forall g, k :: g in gs && (k in gs[g].idle || k in gs[g].busy) ==> k in gs'[g].idle || k in gs'[g].busy)
  }

  lemma ShrinksKeeps<N>(s: State<N>, gs: Groups<N>, gs': Groups<N>, apart: bool)
    requires GroupsOk(s, gs, apart) && Shrinks(gs, gs')
    ensures GroupsOk(s, gs', apart)
  {
    assert IdleAreFree(s, gs', apart);
    assert apart ==> IdleOnce(gs');
    assert Grouped(s, gs');
  }

  lemma MakeBusyKeeps<N>(s: State<N>, gs: Groups<N>, g: string, k: string, apart: bool)
    requires GroupsOk(s, gs, apart) && g in gs && k in gs[g].idle
    ensures var gs' := MakeBusy(gs, g, k);
      GroupsOk(s, gs', apart) && Shrinks(gs, gs') && (apart ==> IdleNowhere(gs', gs[g].idle[k]))
  {
    ShrinksKeeps(s, gs, MakeBusy(gs, g, k), apart);
  }

  /** A usable idle node is a current, healthy one; with ids kept apart, no task is running on it. */
  lemma UsableIsHealthy<N>(s: State<N>, gs: Groups<N>, g: string, k: string, apart: bool)
    requires MapsOk(s) && IdleAreFree(s, gs, apart) && Usable(s, gs, g, k)
    ensures var n := gs[g].idle[k]; Healthy(s, n) && s.info[n].id == k && (apart ==> n !in s.pending)
  {
  }

  lemma FitBatchGrows<N>(s: State<N>, gs: Groups<N>, gs': Groups<N>, batch: seq<Assignment<N>>, a: Assignment<N>,
                         apart: bool)
    requires FitBatch(s, gs, batch, apart) && Shrinks(gs, gs')
    requires a.group in gs && a.id in gs[a.group].idle && gs[a.group].idle[a.id] == a.node
    requires Fit(s, gs', a.node, apart) && s.info[a.node].id == a.id
    ensures FitBatch(s, gs', batch + [a], apart)
  {
    forall i | 0 <= i < |batch| ensures Fit(s, gs', batch[i].node, apart) && (apart ==> batch[i].node != a.node) {
      assert Fit(s, gs, batch[i].node, apart);
    }
  }

  /** Assigned nodes are healthy and current and, with ids kept apart, free and distinct: no worker is booked twice. */
  lemma {:induction false} BatchIsFit<N>(s: State<N>, order: seq<string>, tasks: seq<TaskDef>,
                                         batch: seq<Assignment<N>>, apart: bool)
    requires Inv(s, apart) && AssignedInTurn(s, order, tasks, batch)
    ensures FitBatch(s, Left(s.groups, batch), batch, apart) && GroupsOk(s, Left(s.groups, batch), apart)
    decreases |batch|
  {
    if batch != [] {
      var init, a := batch[..|batch| - 1], batch[|batch| - 1];
      assert batch == init + [a];
      var before := Left(s.groups, init);
      BatchIsFit(s, order, tasks, init, apart);
      UsableIsHealthy(s, before, a.group, a.id, apart);
      MakeBusyKeeps(s, before, a.group, a.id, apart);
      FitBatchGrows(s, before, MakeBusy(before, a.group, a.id), init, a, apart);
    }
  }

  // -------------------------------------------------------------------------------------------
  // Starting tasks.

  /** A node leaves the idle nodes of `from` and becomes busy in `to`; an emptied group goes away. */
  function Rebooked<N>(gs: Groups<N>, from: string, to: string, id: string, n: N): Groups<N>
    requires from in gs
  {
    var gs1 := gs[from := gs[from].(idle := gs[from].idle - {id})];
    var gs2 := if from != "" && gs1[from].idle.Keys == {} && gs1[from].busy.Keys == {} then gs1 - {from} else gs1;
    var gs3 := if to in gs2 then gs2 else gs2[to := Group(map[], map[])];
    gs3[to := gs3[to].(busy := gs3[to].busy[id := n])]
  }

  ghost predicate IdleWithin<N>(gs: Groups<N>, gs': Groups<N>) {
    forall g, k :: g in gs' && k in gs'[g].idle ==> g in gs && k in gs[g].idle && gs'[g].idle[k] == gs[g].idle[k]
  }

  lemma RebookShape<N>(gs: Groups<N>, from: string, to: string, id: string, n: N)
    requires from in gs
    ensures var gs' := Rebooked(gs, from, to, id, n);
      && IdleWithin(gs, gs') && ("" in gs ==> "" in gs') && to in gs' && id in gs'[to].busy
      && (forall g, k :: g in gs && k != id && (k in gs[g].idle || k in gs[g].busy) ==>
            g in gs' && (k in gs'[g].idle || k in gs'[g].busy))
  {
    var gs' := Rebooked(gs, from, to, id, n);
    forall g, k | g in gs && k != id && (k in gs[g].idle || k in gs[g].busy)
      ensures g in gs' && (k in gs'[g].idle || k in gs'[g].busy)
    {
      if g == from { assert k in gs[from].idle - {id} || k in gs[from].busy; }
    }
  }

  /** The group a node leaves goes away exactly if the node was the last in it. */
  lemma EmptiedGroupGoes<N>(gs: Groups<N>, from: string, to: string, id: string, n: N)
    requires from in gs && from != to
    ensures from !in Rebooked(gs, from, to, id, n) <==>
            from != "" && gs[from].busy.Keys == {} && gs[from].idle.Keys <= {id}
    ensures from in Rebooked(gs, from, to, id, n) ==>
            Rebooked(gs, from, to, id, n)[from] == Group(gs[from].idle - {id}, gs[from].busy)
  {
    assert (gs[from].idle - {id}).Keys == gs[from].idle.Keys - {id};
  }

  /** Node `n` starts a task. */
  function Booked<N>(s: State<N>, n: N, task: TaskDef): State<N>
    requires n in s.info && s.info[n].snapshotId in s.groups
  {
    var node := s.info[n];
    var busy := node.(runningJob := task.ref.job, runningTask := task.ref.task, snapshotId := task.snapshotId);
    s.(groups := Rebooked(s.groups, node.snapshotId, task.snapshotId, node.id, n), numRunning := s.numRunning + 1,
       info := s.info[n := busy], pending := s.pending + multiset{n})
  }

  lemma BookedKeepsInv<N>(s: State<N>, n: N, task: TaskDef, apart: bool)
    requires Inv(s, apart) && Fit(s, s.groups, n, apart)
    ensures s.info[n].snapshotId in s.groups
    ensures Inv(Booked(s, n, task), apart) && IdleWithin(s.groups, Booked(s, n, task).groups)
  {
    assert Live(s, n);
    var s' := Booked(s, n, task);
    BookedKeepsMaps(s, n, task);
    RebookShape(s.groups, s.info[n].snapshotId, task.snapshotId, s.info[n].id, n);
    BookedKeepsGroups(s, s', n, apart);
    OneMoreTask(s, s', n, apart);
  }

  lemma OneMoreTask<N>(s: State<N>, s': State<N>, n: N, apart: bool)
    requires Counted(s, apart) && (apart ==> NoTwins(s.info) && n !in s.pending) && n in s.info && SameIds(s, s')
    requires s'.pending == s.pending + multiset{n} && s'.numRunning == s.numRunning + 1
    ensures Counted(s', apart) && (apart ==> NoTwins(s'.info))
  {
  }

  lemma BookedKeepsMaps<N>(s: State<N>, n: N, task: TaskDef)
    requires MapsOk(s) && n in s.info && s.info[n].snapshotId in s.groups
    ensures MapsOk(Booked(s, n, task)) && SameLive(s, Booked(s, n, task))
  {
    var s' := Booked(s, n, task);
    assert forall m <- s.info :: Live(s', m) == Live(s, m);
  }

  lemma BookedKeepsGroups<N>(s: State<N>, s': State<N>, n: N, apart: bool)
    requires MapsOk(s) && GroupsOk(s, s.groups, apart) && n in s.info && Live(s, n)
    requires apart ==> IdleNowhere(s.groups, n)
    requires SameLive(s, s')
    requires forall m <- s.info :: m != n ==> s'.info[m] == s.info[m]
    requires s'.info[n].id == s.info[n].id && s'.pending == s.pending + multiset{n}
    requires IdleWithin(s.groups, s'.groups) && "" in s'.groups && HasGroup(s'.groups, s'.info[n])
    requires forall g, k :: g in s.groups && k != s.info[n].id && (k in s.groups[g].idle || k in s.groups[g].busy) ==>
               g in s'.groups && (k in s'.groups[g].idle || k in s'.groups[g].busy)
    requires s'.info[n].timeLost == s.info[n].timeLost
    ensures GroupsOk(s', s'.groups, apart)
  {
    assert IdleAreFree(s', s'.groups, apart);
    assert apart ==> IdleOnce(s'.groups);
    forall m | m in s'.info && Live(s', m) ensures HasGroup(s'.groups, s'.info[m]) {
      if m != n { assert s.info[m].id != s.info[n].id; }
    }
  }

  /** All tasks of a batch start, one after the other. */
  ghost function BookedAll<N>(s: State<N>, batch: seq<Assignment<N>>): State<N> {
    if batch == [] then s else
    var before, a := BookedAll(s, batch[..|batch| - 1]), batch[|batch| - 1];
    if a.node in before.info && before.info[a.node].snapshotId in before.groups then Booked(before, a.node, a.task)
    else before
  }

  ghost function Nodes<N>(batch: seq<Assignment<N>>): multiset<N> {
    if batch == [] then multiset{} else Nodes(batch[..|batch| - 1]) + multiset{batch[|batch| - 1].node}
  }

  /** Starting a task changes neither a node's id nor anything about its being suspended. */
  ghost predicate SameStanding(a: Node, b: Node) {
    a.id == b.id && a.timeLost == b.timeLost && a.timeFlaky == b.timeFlaky && a.readyCh == b.readyCh
  }

  /** From `s` to `s'` only the nodes in `touched` changed, each by starting a task. */
  ghost predicate OnlyStarted<N>(s: State<N>, s': State<N>, touched: multiset<N>) {
    && IdleWithin(s.groups, s'.groups) && s'.nodes == s.nodes && s'.suspended == s.suspended
    && s'.pending == s.pending + touched && s'.info.Keys == s.info.Keys
    && forall n <- s.info :: SameStanding(s'.info[n], s.info[n]) && (n !in touched ==> s'.info[n] == s.info[n])
  }

  lemma StillFit<N>(s: State<N>, s': State<N>, touched: multiset<N>, n: N, apart: bool)
    requires Fit(s, s.groups, n, apart) && OnlyStarted(s, s', touched) && (apart ==> n !in touched)
    ensures Fit(s', s'.groups, n, apart)
  {
    assert SameStanding(s'.info[n], s.info[n]);
  }

  lemma OneMoreStarted<N>(s: State<N>, s1: State<N>, touched: multiset<N>, n: N, task: TaskDef)
    requires OnlyStarted(s, s1, touched) && n in s1.info && s1.info[n].snapshotId in s1.groups
    requires IdleWithin(s1.groups, Booked(s1, n, task).groups)
    ensures OnlyStarted(s, Booked(s1, n, task), touched + multiset{n})
  {
    assert s.pending + touched + multiset{n} == s.pending + (touched + multiset{n});
  }

  lemma OneMoreBooked<N>(s: State<N>, s1: State<N>, touched: multiset<N>, n: N, task: TaskDef, apart: bool)
    requires Inv(s1, apart) && OnlyStarted(s, s1, touched) && Fit(s, s.groups, n, apart) && (apart ==> n !in touched)
    ensures n in s1.info && s1.info[n].snapshotId in s1.groups
    ensures Inv(Booked(s1, n, task), apart) && OnlyStarted(s, Booked(s1, n, task), touched + multiset{n})
  {
    StillFit(s, s1, touched, n, apart);
    BookedKeepsInv(s1, n, task, apart);
    OneMoreStarted(s, s1, touched, n, task);
  }

  lemma NothingStarted<N>(s: State<N>)
    ensures OnlyStarted(s, s, Nodes([]))
  {
    assert s.pending + multiset{} == s.pending;
  }

  lemma LastIsFit<N>(s: State<N>, batch: seq<Assignment<N>>, apart: bool)
    requires FitBatch(s, s.groups, batch, apart) && batch != []
    ensures var init, a := batch[..|batch| - 1], batch[|batch| - 1];
      FitBatch(s, s.groups, init, apart) && Fit(s, s.groups, a.node, apart) && (apart ==> a.node !in Nodes(init))
  {
    var init, a := batch[..|batch| - 1], batch[|batch| - 1];
    FitPrefix(s, batch, |batch| - 1, apart);
    if apart { NotAmong(init, a.node); }
  }

  lemma {:induction false} BookedAllKeepsInv<N>(s: State<N>, batch: seq<Assignment<N>>, apart: bool)
    requires Inv(s, apart) && FitBatch(s, s.groups, batch, apart)
    ensures Inv(BookedAll(s, batch), apart) && OnlyStarted(s, BookedAll(s, batch), Nodes(batch))
  {
    if batch == [] {
      NothingStarted(s);
    } else {
      var init, a := batch[..|batch| - 1], batch[|batch| - 1];
      LastIsFit(s, batch, apart);
      BookedAllKeepsInv(s, init, apart);
      var s1 := BookedAll(s, init);
      OneMoreBooked(s, s1, Nodes(init), a.node, a.task, apart);
      assert BookedAll(s, batch) == Booked(s1, a.node, a.task);
      assert Nodes(batch) == Nodes(init) + multiset{a.node};
    }
  }

  lemma FitPrefix<N>(s: State<N>, batch: seq<Assignment<N>>, i: nat, apart: bool)
    requires FitBatch(s, s.groups, batch, apart) && i <= |batch|
    ensures FitBatch(s, s.groups, batch[..i], apart)
  {
  }

  lemma {:induction false} NotAmong<N>(batch: seq<Assignment<N>>, n: N)
    requires forall i :: 0 <= i < |batch| ==> batch[i].node != n
    ensures n !in Nodes(batch)
  {
    if batch != [] { NotAmong(batch[..|batch| - 1], n); }
  }

  // -------------------------------------------------------------------------------------------
  // Completing tasks.

  ghost function GoneIdle<N>(gs: Groups<N>, g: string, id: string, n: N): Groups<N>
    requires g in gs
  {
    gs[g := Group(gs[g].idle[id := n], gs[g].busy - {id})]
  }

  /** Node `n` now looks like `node`, and is among the healthy nodes or the suspended ones. */
  ghost function Placed<N>(s: State<N>, n: N, node: Node, healthy: bool): State<N> {
    s.(info := s.info[n := node],
       nodes := if healthy then s.nodes[node.id := n] else s.nodes - {node.id},
       suspended := if healthy then s.suspended - {node.id} else s.suspended[node.id := n])
  }

  lemma PlacedSameLive<N>(s: State<N>, n: N, node: Node, healthy: bool)
    requires MapsOk(s) && n in s.info && Live(s, n) && node.id == s.info[n].id
    ensures SameLive(s, Placed(s, n, node, healthy))
  {
    assert forall m <- s.info :: m != n && Live(s, m) ==> s.info[m].id != node.id;
  }

  lemma PlacedKeepsMaps<N>(s: State<N>, n: N, node: Node, healthy: bool)
    requires MapsOk(s) && n in s.info && Live(s, n) && node.id == s.info[n].id
    requires if healthy then node.timeLost == node.timeFlaky == 0
             else node.Suspended() && (node.timeLost == 0 || node.timeFlaky == 0)
    ensures MapsOk(Placed(s, n, node, healthy)) && SameLive(s, Placed(s, n, node, healthy))
  {
    PlacedSameLive(s, n, node, healthy);
    var s' := Placed(s, n, node, healthy);
    assert Keyed(s'.nodes, s'.info);
    assert Keyed(s'.suspended, s'.info);
  }

  ghost predicate SameLive<N>(s: State<N>, s': State<N>) {
    s'.info.Keys == s.info.Keys && forall m <- s.info :: Live(s', m) == Live(s, m)
  }

  /** A task has finished on the node with this id, if there is one; a flaky node is set aside. */
  ghost function Completed<N>(s: State<N>, id: string, flaky: bool, now: nat): State<N>
    requires Entries(s, id)
  {
    if id !in s.nodes && id !in s.suspended then s.(numRunning := s.numRunning - 1) else
    var n := if id in s.nodes then s.nodes[id] else s.suspended[id];
    var node := s.info[n].(runningJob := "", runningTask := "");
    var setAside := flaky && !node.Suspended();
    Placed(s, n, if setAside then node.(timeFlaky := now) else node, id in s.nodes && !setAside).(
      groups := GoneIdle(s.groups, node.snapshotId, id, n), numRunning := s.numRunning - 1)
  }

  ghost predicate IsCurrent<N>(s: State<N>, n: N)
    requires n in s.info
  {
    s.info[n].id in s.nodes && s.nodes[s.info[n].id] == n
  }

  /** The id a completion callback reports: a made-up one unless its node is still the current one. */
  ghost function Reported<N>(s: State<N>, n: N): string
    requires n in s.info
  {
    if IsCurrent(s, n) then s.info[n].id else s.info[n].id + ERROR_SUFFIX
  }

  ghost function Fired<N>(s: State<N>, n: N, flaky: bool, now: nat): State<N>
    requires n in s.info && Entries(s, Reported(s, n))
  {
    Completed(s, Reported(s, n), flaky, now).(pending := s.pending - multiset{n})
  }

  ghost predicate Untaken<N>(s: State<N>, id: string) { id !in s.nodes && id !in s.suspended }

  lemma ApartIsUntaken<N>(s: State<N>, n: N)
    requires MapsOk(s) && NoTwins(s.info) && n in s.info
    ensures Untaken(s, s.info[n].id + ERROR_SUFFIX)
  {
  }

  /** A completion that arrives after its node was suspended, reaped or replaced leaves every node alone, unless some
      worker goes by the id made up for it. */
  lemma LateCompletionTouchesNoNode<N>(s: State<N>, n: N, flaky: bool, now: nat)
    requires n in s.info && !IsCurrent(s, n) && "" in s.groups && Untaken(s, s.info[n].id + ERROR_SUFFIX)
    ensures Entries(s, Reported(s, n))
    ensures Fired(s, n, flaky, now) == s.(numRunning := s.numRunning - 1, pending := s.pending - multiset{n})
  {
  }

  /** The idle nodes of `gs'` are those of `gs` and possibly `n`, newly idle in `g`; no other node leaves its group. */
  ghost predicate OneMoreIdle<N>(gs: Groups<N>, gs': Groups<N>, g: string, id: string, n: N) {
    && gs.Keys == gs'.Keys && g in gs
    && (forall h, k :: h in gs' && k in gs'[h].idle ==>
          (h == g && k == id && gs'[h].idle[k] == n) || (k in gs[h].idle && gs'[h].idle[k] == gs[h].idle[k]))
    && (forall h, k :: h in gs && (k in gs[h].idle || k in gs[h].busy) ==> k in gs'[h].idle || k in gs'[h].busy)
  }

  lemma GoneIdleShape<N>(gs: Groups<N>, g: string, id: string, n: N)
    requires g in gs
    ensures OneMoreIdle(gs, GoneIdle(gs, g, id, n), g, id, n)
  {
  }

  lemma OneMoreIdleOnce<N>(gs: Groups<N>, gs': Groups<N>, g: string, id: string, n: N)
    requires OneMoreIdle(gs, gs', g, id, n) && IdleOnce(gs) && IdleNowhere(gs, n)
    ensures IdleOnce(gs')
  {
  }

  lemma OneMoreIdleKeepsGroups<N>(s: State<N>, s': State<N>, g: string, n: N, apart: bool)
    requires GroupsOk(s, s.groups, apart) && n in s.info && Live(s, n)
    requires SameLive(s, s') && s'.pending <= s.pending
    requires apart ==> IdleNowhere(s.groups, n) && n !in s'.pending
    requires forall m <- s.info :: m != n ==> s'.info[m] == s.info[m]
    requires s'.info[n].id == s.info[n].id && s'.info[n].snapshotId == s.info[n].snapshotId
    requires OneMoreIdle(s.groups, s'.groups, g, s.info[n].id, n)
    ensures GroupsOk(s', s'.groups, apart)
  {
    if apart { OneMoreIdleOnce(s.groups, s'.groups, g, s.info[n].id, n); }
    assert IdleAreFree(s', s'.groups, apart);
    assert Grouped(s', s'.groups);
  }

  lemma PendingIsNotIdle<N>(s: State<N>, n: N)
    requires IdleAreFree(s, s.groups, true) && n in s.pending
    ensures IdleNowhere(s.groups, n)
  {
  }

  lemma SameMaps<N>(s: State<N>, s': State<N>)
    requires MapsOk(s) && s' == s.(groups := s'.groups, numRunning := s'.numRunning, pending := s'.pending)
    ensures MapsOk(s') && SameLive(s, s')
  {
    assert forall m <- s.info :: Live(s', m) == Live(s, m);
  }

  /** The node a completion finds under the id it was given. */
  ghost function Found<N>(s: State<N>, id: string): N
    requires id in s.nodes || id in s.suspended
  {
    if id in s.nodes then s.nodes[id] else s.suspended[id]
  }

  lemma CompletedKeepsMaps<N>(s: State<N>, id: string, flaky: bool, now: nat, pending: multiset<N>)
    requires MapsOk(s) && Entries(s, id) && !Untaken(s, id) && now > 0
    ensures var s' := Completed(s, id, flaky, now).(pending := pending); MapsOk(s') && SameLive(s, s')
  {
    var n := Found(s, id);
    var node := s.info[n].(runningJob := "", runningTask := "");
    var setAside := flaky && !node.Suspended();
    var s1 := Placed(s, n, if setAside then node.(timeFlaky := now) else node, id in s.nodes && !setAside);
    PlacedKeepsMaps(s, n, if setAside then node.(timeFlaky := now) else node, id in s.nodes && !setAside);
    SameMaps(s1, Completed(s, id, flaky, now).(pending := pending));
  }

  lemma CompletedKeepsGroups<N>(s: State<N>, id: string, flaky: bool, now: nat, pending: multiset<N>, apart: bool)
    requires MapsOk(s) && GroupsOk(s, s.groups, apart) && Entries(s, id) && !Untaken(s, id) && now > 0
    requires pending <= s.pending && (apart ==> IdleNowhere(s.groups, Found(s, id)) && Found(s, id) !in pending)
    ensures var s' := Completed(s, id, flaky, now).(pending := pending); GroupsOk(s', s'.groups, apart)
  {
    CompletedKeepsMaps(s, id, flaky, now, pending);
    var n := Found(s, id);
    var g := s.info[n].snapshotId;
    GoneIdleShape(s.groups, g, id, n);
    OneMoreIdleKeepsGroups(s, Completed(s, id, flaky, now).(pending := pending), g, n, apart);
  }

  lemma SameNodesKeepGroups<N>(s: State<N>, s': State<N>, apart: bool)
    requires MapsOk(s) && GroupsOk(s, s.groups, apart) && s'.pending <= s.pending
    requires s' == s.(numRunning := s'.numRunning, pending := s'.pending)
    ensures MapsOk(s') && GroupsOk(s', s'.groups, apart)
  {
    assert forall m <- s.info :: Live(s', m) == Live(s, m);
  }

  lemma CompletedKeepsIds<N>(s: State<N>, id: string, flaky: bool, now: nat)
    requires Entries(s, id)
    ensures SameIds(s, Completed(s, id, flaky, now))
  {
  }

  ghost predicate SameIds<N>(s: State<N>, s': State<N>) {
    s'.info.Keys == s.info.Keys && forall n <- s.info :: s'.info[n].id == s.info[n].id
  }

  lemma FiredKeepsInv<N>(s: State<N>, n: N, flaky: bool, now: nat, apart: bool)
    requires Inv(s, apart) && n in s.pending && now > 0
    ensures Entries(s, Reported(s, n)) && Inv(Fired(s, n, flaky, now), apart)
  {
    var id := Reported(s, n);
    InvEntries(s, id);
    if apart {
      PendingIsNotIdle(s, n);
      ApartIsUntaken(s, n);
    }
    if Untaken(s, id) {
      SameNodesKeepGroups(s, Fired(s, n, flaky, now), apart);
    } else {
      CompletedKeepsMaps(s, id, flaky, now, s.pending - multiset{n});
      CompletedKeepsGroups(s, id, flaky, now, s.pending - multiset{n}, apart);
    }
    CompletedKeepsIds(s, id, flaky, now);
    OneTaskLess(s, Fired(s, n, flaky, now), n, apart);
  }

  lemma OneTaskLess<N>(s: State<N>, s': State<N>, n: N, apart: bool)
    requires Counted(s, apart) && (apart ==> NoTwins(s.info)) && n in s.pending && SameIds(s, s')
    requires s'.pending == s.pending - multiset{n} && s'.numRunning == s.numRunning - 1
    ensures Counted(s', apart) && (apart ==> NoTwins(s'.info))
  {
  }

  // -------------------------------------------------------------------------------------------
  // Nodes joining and leaving the cluster.

  datatype Config = Config(hasReadyFn: bool, maxLost: nat, maxFlaky: nat)

  function Fresh(cfg: Config, id: string): Node { Node(id, "", "", "", 0, 0, if cfg.hasReadyFn then Open else Absent) }

  /** A new node starts idle, healthy at once or suspended until it is ready. */
  ghost function Joined<N>(s: State<N>, cfg: Config, id: string, n: N): State<N>
    requires "" in s.groups
  {
    Placed(s, n, Fresh(cfg, id), !cfg.hasReadyFn).(
      groups := s.groups["" := s.groups[""].(idle := s.groups[""].idle[id := n])])
  }

  /** A node with this id is reported present; if it is new, `n` is its node state. */
  ghost function Added<N>(s: State<N>, cfg: Config, id: string, n: N): State<N>
    requires Entries(s, id)
  {
    if id in s.suspended then
      var m := s.suspended[id];
      if s.info[m].readyCh != Open && s.info[m].timeLost != 0 then Placed(s, m, s.info[m].(timeLost := 0), true) else s
    else if id !in s.nodes then
      Joined(s, cfg, id, n)
    else s
  }

  /** A node with this id is reported gone. */
  ghost function Removed<N>(s: State<N>, id: string, now: nat): State<N>
    requires Entries(s, id)
  {
    if id in s.suspended then
      var m := s.suspended[id];
      Placed(s, m, s.info[m].(timeLost := now, timeFlaky := 0), false)
    else if id in s.nodes then
      var m := s.nodes[id];
      Placed(s, m, s.info[m].(timeLost := now), false)
    else s
  }

  /** All entries of a node are dropped from its group. */
  ghost function Dropped<N>(gs: Groups<N>, g: string, id: string): Groups<N>
    requires g in gs
  {
    gs[g := Group(gs[g].idle - {id}, gs[g].busy - {id})]
  }

  /** The periodic look at one suspended node: it becomes healthy, is reaped, is given another try, or waits on. */
  ghost function Cleaned<N>(s: State<N>, cfg: Config, id: string, now: nat): State<N>
    requires Entries(s, id)
  {
    if id !in s.suspended then s else
    var n := s.suspended[id];
    var node := if s.info[n].readyCh == Open then s.info[n] else s.info[n].(readyCh := Absent);
    if !node.Suspended() then
      Placed(s, n, node, true)
    else if node.timeLost != 0 && now - node.timeLost > cfg.maxLost then
      s.(info := s.info[n := node], suspended := s.suspended - {id}, groups := Dropped(s.groups, node.snapshotId, id))
    else if node.timeFlaky != 0 && now - node.timeFlaky > cfg.maxFlaky then
      var again := node.(timeFlaky := 0, snapshotId := "");
      if cfg.hasReadyFn then Placed(s, n, again.(readyCh := Open), false) else Placed(s, n, again, true)
    else
      Placed(s, n, node, false)
  }

  /** The readiness loop of a node closes its channel. */
  ghost function BecameReady<N>(s: State<N>, n: N): State<N>
    requires n in s.info
  {
    if s.info[n].readyCh == Open then s.(info := s.info[n := s.info[n].(readyCh := Closed)]) else s
  }

  lemma SameLiveKeepsGroups<N>(s: State<N>, s': State<N>, n: N, apart: bool)
    requires GroupsOk(s, s.groups, apart) && SameLive(s, s') && n in s.info
    requires s'.groups == s.groups && s'.pending == s.pending
    requires forall m <- s.info :: m != n ==> s'.info[m] == s.info[m]
    requires s'.info[n].id == s.info[n].id && (Live(s, n) || s'.info[n].timeLost == s.info[n].timeLost)
    requires s'.info[n].snapshotId == s.info[n].snapshotId || s'.info[n].snapshotId == ""
    ensures GroupsOk(s', s'.groups, apart)
  {
    assert IdleAreFree(s', s'.groups, apart);
    assert Grouped(s', s'.groups);
  }

  lemma CleanedLeavesOthers<N>(s: State<N>, cfg: Config, id: string, now: nat)
    requires Entries(s, id)
    ensures s.suspended.Keys - {id} <= Cleaned(s, cfg, id, now).suspended.Keys
  {
  }

  /** Moving a current node keeps the invariant; its snapshot may be forgotten. */
  lemma PlacedKeepsInv<N>(s: State<N>, n: N, node: Node, healthy: bool, apart: bool)
    requires Inv(s, apart) && n in s.info && Live(s, n) && node.id == s.info[n].id
    requires node.snapshotId == s.info[n].snapshotId || node.snapshotId == ""
    requires if healthy then node.timeLost == node.timeFlaky == 0
             else node.Suspended() && (node.timeLost == 0 || node.timeFlaky == 0)
    ensures Inv(Placed(s, n, node, healthy), apart)
  {
    PlacedKeepsMaps(s, n, node, healthy);
    SameLiveKeepsGroups(s, Placed(s, n, node, healthy), n, apart);
    PlacedKeepsIds(s, n, node, healthy);
    SameTasks(s, Placed(s, n, node, healthy), apart);
  }

  lemma SameTasks<N>(s: State<N>, s': State<N>, apart: bool)
    requires Counted(s, apart) && (apart ==> NoTwins(s.info)) && SameIds(s, s')
    requires s'.pending == s.pending && s'.numRunning == s.numRunning
    ensures Counted(s', apart) && (apart ==> NoTwins(s'.info))
  {
  }

  lemma PlacedKeepsIds<N>(s: State<N>, n: N, node: Node, healthy: bool)
    requires n in s.info && node.id == s.info[n].id
    ensures SameIds(s, Placed(s, n, node, healthy))
  {
  }

  lemma RemovedKeepsInv<N>(s: State<N>, id: string, now: nat, apart: bool)
    requires Inv(s, apart) && now > 0
    ensures Entries(s, id) && Inv(Removed(s, id, now), apart)
  {
    InvEntries(s, id);
    if id in s.suspended {
      var m := s.suspended[id];
      PlacedKeepsInv(s, m, s.info[m].(timeLost := now, timeFlaky := 0), false, apart);
    } else if id in s.nodes {
      var m := s.nodes[id];
      PlacedKeepsInv(s, m, s.info[m].(timeLost := now), false, apart);
    }
  }

  lemma BecameReadyKeepsMaps<N>(s: State<N>, n: N)
    requires MapsOk(s) && n in s.info
    ensures MapsOk(BecameReady(s, n)) && SameLive(s, BecameReady(s, n))
  {
    assert forall m <- s.info :: Live(BecameReady(s, n), m) == Live(s, m);
  }

  lemma BecameReadyKeepsInv<N>(s: State<N>, n: N, apart: bool)
    requires Inv(s, apart) && n in s.info
    ensures Inv(BecameReady(s, n), apart)
  {
    BecameReadyKeepsMaps(s, n);
    SameLiveKeepsGroups(s, BecameReady(s, n), n, apart);
  }

  lemma ReapedKeepsInv<N>(s: State<N>, n: N, node: Node, apart: bool)
    requires Inv(s, apart) && n in s.info && node.id == s.info[n].id && node.timeLost == s.info[n].timeLost != 0
    requires node.id in s.suspended && s.suspended[node.id] == n && s.info[n].snapshotId in s.groups
    ensures Inv(s.(info := s.info[n := node], suspended := s.suspended - {node.id},
                   groups := Dropped(s.groups, s.info[n].snapshotId, node.id)), apart)
  {
    var s' := s.(info := s.info[n := node], suspended := s.suspended - {node.id},
                 groups := Dropped(s.groups, s.info[n].snapshotId, node.id));
    ReapedKeepsMaps(s, s', n);
    DroppedKeepsGroups(s, s', n, apart);
  }

  lemma ReapedKeepsMaps<N>(s: State<N>, s': State<N>, n: N)
    requires MapsOk(s) && n in s.info && s.info[n].id in s.suspended && s.suspended[s.info[n].id] == n
    requires s'.info.Keys == s.info.Keys && (forall m <- s.info :: m != n ==> s'.info[m] == s.info[m])
    requires s'.info[n].id == s.info[n].id && s'.nodes == s.nodes && s'.suspended == s.suspended - {s.info[n].id}
    ensures MapsOk(s') && forall m <- s.info :: m != n ==> Live(s', m) == Live(s, m)
    ensures forall m <- s.info :: Live(s', m) ==> s.info[m].id != s.info[n].id
  {
  }

  lemma DroppedShape<N>(gs: Groups<N>, g: string, id: string)
    requires g in gs
    ensures var gs' := Dropped(gs, g, id);
      && gs'.Keys == gs.Keys && IdleWithin(gs, gs')
      && forall h, k :: h in gs && k != id && (k in gs[h].idle || k in gs[h].busy) ==>
           k in gs'[h].idle || k in gs'[h].busy
  {
  }

  lemma DroppedKeepsGroups<N>(s: State<N>, s': State<N>, n: N, apart: bool)
    requires GroupsOk(s, s.groups, apart) && n in s.info && s.info[n].snapshotId in s.groups
    requires s'.groups == Dropped(s.groups, s.info[n].snapshotId, s.info[n].id) && s'.pending == s.pending
    requires s'.info.Keys == s.info.Keys && forall m <- s.info :: m != n ==> s'.info[m] == s.info[m]
    requires s'.info[n].id == s.info[n].id && s'.info[n].timeLost != 0
    requires forall m <- s.info :: m != n ==> Live(s', m) == Live(s, m)
    requires forall m <- s.info :: Live(s', m) ==> s.info[m].id != s.info[n].id
    ensures GroupsOk(s', s'.groups, apart)
  {
    DroppedShape(s.groups, s.info[n].snapshotId, s.info[n].id);
    WithinKeepsGroups(s, s', n, s'.groups, apart);
  }

  lemma WithinKeepsGroups<N>(s: State<N>, s': State<N>, n: N, gs: Groups<N>, apart: bool)
    requires GroupsOk(s, s.groups, apart) && n in s.info && s'.pending == s.pending
    requires gs.Keys == s.groups.Keys && IdleWithin(s.groups, gs)
    requires forall h, k :: h in gs && k != s.info[n].id && (k in s.groups[h].idle || k in s.groups[h].busy) ==>
               k in gs[h].idle || k in gs[h].busy
    requires s'.info.Keys == s.info.Keys && forall m <- s.info :: m != n ==> s'.info[m] == s.info[m]
    requires s'.info[n].id == s.info[n].id && s'.info[n].timeLost != 0
    requires forall m <- s.info :: m != n ==> Live(s', m) == Live(s, m)
    requires forall m <- s.info :: Live(s', m) ==> s.info[m].id != s.info[n].id
    ensures GroupsOk(s', gs, apart)
  {
    assert IdleAreFree(s', gs, apart);
    assert apart ==> IdleOnce(gs);
    assert Grouped(s', gs);
  }

  lemma CleanedKeepsInv<N>(s: State<N>, cfg: Config, id: string, now: nat, apart: bool)
    requires Inv(s, apart)
    ensures Entries(s, id) && Inv(Cleaned(s, cfg, id, now), apart)
  {
    InvEntries(s, id);
    if id in s.suspended {
      var n := s.suspended[id];
      assert Live(s, n);
      var node := if s.info[n].readyCh == Open then s.info[n] else s.info[n].(readyCh := Absent);
      if !node.Suspended() {
        PlacedKeepsInv(s, n, node, true, apart);
      } else if node.timeLost != 0 && now - node.timeLost > cfg.maxLost {
        ReapedKeepsInv(s, n, node, apart);
      } else if node.timeFlaky != 0 && now - node.timeFlaky > cfg.maxFlaky {
        var again := node.(timeFlaky := 0, snapshotId := "");
        if cfg.hasReadyFn {
          PlacedKeepsInv(s, n, again.(readyCh := Open), false, apart);
        } else {
          PlacedKeepsInv(s, n, again, true, apart);
        }
      } else {
        PlacedKeepsInv(s, n, node, false, apart);
      }
    }
  }

  lemma KeyedGrows<N>(m: map<string, N>, info: map<N, Node>, n: N, node: Node)
    requires Keyed(m, info) && n !in info
    ensures Keyed(m, info[n := node]) && Keyed(m[node.id := n], info[n := node])
  {
  }

  lemma JoinedKeepsMaps<N>(s: State<N>, n: N, node: Node, healthy: bool)
    requires MapsOk(s) && n !in s.info && node.id !in s.nodes && node.id !in s.suspended
    requires node.timeLost == node.timeFlaky == 0 && (!healthy ==> node.Suspended())
    ensures var s' := Placed(s, n, node, healthy);
      MapsOk(s') && Live(s', n) && forall m <- s.info :: Live(s', m) == Live(s, m)
  {
    KeyedGrows(s.nodes, s.info, n, node);
    KeyedGrows(s.suspended, s.info, n, node);
    var s' := Placed(s, n, node, healthy);
    if healthy {
      assert s'.suspended == s.suspended;
    } else {
      assert s'.nodes == s.nodes;
    }
  }

  lemma JoinedShape<N>(gs: Groups<N>, id: string, n: N)
    requires "" in gs
    ensures OneMoreIdle(gs, gs["" := gs[""].(idle := gs[""].idle[id := n])], "", id, n)
  {
  }

  lemma JoinedKeepsGroups<N>(s: State<N>, s': State<N>, n: N, apart: bool)
    requires GroupsOk(s, s.groups, apart) && Counted(s, apart) && n !in s.info
    requires s'.info.Keys == s.info.Keys + {n} && forall m <- s.info :: s'.info[m] == s.info[m]
    requires Live(s', n) && s'.info[n].snapshotId == "" && s'.pending == s.pending
    requires forall m <- s.info :: Live(s', m) == Live(s, m)
    requires OneMoreIdle(s.groups, s'.groups, "", s'.info[n].id, n)
    ensures GroupsOk(s', s'.groups, apart)
  {
    assert IdleNowhere(s.groups, n);
    if apart { OneMoreIdleOnce(s.groups, s'.groups, "", s'.info[n].id, n); }
    assert IdleAreFree(s', s'.groups, apart);
    assert Grouped(s', s'.groups);
  }

  lemma JoinedMaps<N>(s: State<N>, cfg: Config, id: string, n: N)
    requires MapsOk(s) && "" in s.groups && n !in s.info && Untaken(s, id)
    ensures var s' := Joined(s, cfg, id, n);
      MapsOk(s') && Live(s', n) && forall m <- s.info :: Live(s', m) == Live(s, m)
  {
    JoinedKeepsMaps(s, n, Fresh(cfg, id), !cfg.hasReadyFn);
    SameMaps(Placed(s, n, Fresh(cfg, id), !cfg.hasReadyFn), Joined(s, cfg, id, n));
  }

  lemma JoinedGroups<N>(s: State<N>, cfg: Config, id: string, n: N, apart: bool)
    requires Inv(s, apart) && n !in s.info && Untaken(s, id)
    ensures var s' := Joined(s, cfg, id, n); GroupsOk(s', s'.groups, apart)
  {
    JoinedMaps(s, cfg, id, n);
    JoinedShape(s.groups, id, n);
    JoinedKeepsGroups(s, Joined(s, cfg, id, n), n, apart);
  }

  /** The id does not clash with those known. */
  ghost predicate NewIdApart<N>(info: map<N, Node>, id: string) {
    forall n <- info :: id != info[n].id + ERROR_SUFFIX && info[n].id != id + ERROR_SUFFIX
  }

  lemma JoinedKeepsInv<N>(s: State<N>, cfg: Config, id: string, n: N, apart: bool)
    requires Inv(s, apart) && n !in s.info && Untaken(s, id) && (apart ==> NewIdApart(s.info, id))
    ensures Inv(Joined(s, cfg, id, n), apart)
  {
    JoinedMaps(s, cfg, id, n);
    JoinedGroups(s, cfg, id, n, apart);
    var s' := Joined(s, cfg, id, n);
    if apart { TwinsGrow(s.info, id, n, s'.info[n]); }
  }

  lemma TwinsGrow<N>(info: map<N, Node>, id: string, n: N, node: Node)
    requires NoTwins(info) && NewIdApart(info, id) && node.id == id
    ensures NoTwins(info[n := node])
  {
    assert id != id + ERROR_SUFFIX;
  }

  lemma AddedKeepsInv<N>(s: State<N>, cfg: Config, id: string, n: N, apart: bool)
    requires Inv(s, apart) && n !in s.info && (apart ==> NewIdApart(s.info, id))
    ensures Entries(s, id) && Inv(Added(s, cfg, id, n), apart)
  {
    InvEntries(s, id);
    if id in s.suspended {
      var m := s.suspended[id];
      if s.info[m].readyCh != Open && s.info[m].timeLost != 0 {
        PlacedKeepsInv(s, m, s.info[m].(timeLost := 0), true, apart);
      }
    } else if id !in s.nodes {
      JoinedKeepsInv(s, cfg, id, n, apart);
    }
  }

  lemma AddedKeepsIds<N>(s: State<N>, cfg: Config, id: string, n: N)
    requires Entries(s, id) && n !in s.info
    ensures var s' := Added(s, cfg, id, n); SameIds(s, s') || s'.info == s.info[n := Fresh(cfg, id)]
  {
    if id in s.suspended { PlacedKeepsIds(s, s.suspended[id], s.info[s.suspended[id]].(timeLost := 0), true); }
  }

  lemma RemovedKeepsIds<N>(s: State<N>, id: string, now: nat)
    requires Entries(s, id)
    ensures SameIds(s, Removed(s, id, now))
  {
    if id in s.suspended {
      PlacedKeepsIds(s, s.suspended[id], s.info[s.suspended[id]].(timeLost := now, timeFlaky := 0), false);
    } else if id in s.nodes {
      PlacedKeepsIds(s, s.nodes[id], s.info[s.nodes[id]].(timeLost := now), false);
    }
  }

  lemma CleanedKeepsIds<N>(s: State<N>, cfg: Config, id: string, now: nat)
    requires Entries(s, id)
    ensures SameIds(s, Cleaned(s, cfg, id, now))
  {
    if id in s.suspended {
      var n, s' := s.suspended[id], Cleaned(s, cfg, id, now);
      assert s'.info == s.info[n := s'.info[n]] && s'.info[n].id == s.info[n].id;
    }
  }

  // -------------------------------------------------------------------------------------------
  // What the invariant does not give: a healthy node without a task need not be idle.

  /** A completion makes its node idle again exactly when the node is still the current one then. */
  lemma IdleAgainIffCurrent<N>(s: State<N>, n: N, flaky: bool, now: nat)
    requires Inv(s, true) && n in s.pending && now > 0
    ensures Entries(s, Reported(s, n))
    ensures IdleNowhere(Fired(s, n, flaky, now).groups, n) <==> !IsCurrent(s, n)
  {
    PendingIsNotIdle(s, n);
    InvEntries(s, Reported(s, n));
    if IsCurrent(s, n) {
      var g, id := s.info[n].snapshotId, s.info[n].id;
      assert Fired(s, n, flaky, now).groups[g].idle[id] == n;
    } else {
      ApartIsUntaken(s, n);
      LateCompletionTouchesNoNode(s, n, flaky, now);
    }
  }
}
