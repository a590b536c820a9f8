/** The cluster state as the scheduler keeps it: node states on the heap, moved between maps in place. */
module Cluster {
  import opened Wrappers
  import opened Sequences
  import opened TaskGroups
  import opened ClusterSpec
  import opened ClusterRuns

  class NodeState {
    const id: string
    var runningJob: string
    var runningTask: string
    var snapshotId: string
    var timeLost: nat
    var timeFlaky: nat
    var readyCh: Channel

    constructor (id: string, readyCh: Channel)
      ensures Info() == Node(id, "", "", "", 0, 0, readyCh)
    {
      this.id, this.readyCh := id, readyCh;
      runningJob, runningTask, snapshotId, timeLost, timeFlaky := "", "", "", 0, 0;
    }

    function Info(): Node
      reads this
    {
      Node(id, runningJob, runningTask, snapshotId, timeLost, timeFlaky, readyCh)
    }
  }

  /** A report from the cluster, not initiated by a user. */
  datatype NodeUpdate = NodeAdded(id: string) | NodeRemoved(id: string)

  ghost predicate IsEventOf(e: Event<NodeState>, u: NodeUpdate, now: nat) {
    match u
    case NodeAdded(id) => e.Joins? && e.id == id
    case NodeRemoved(id) => e == Leaves(id, now)
  }

  ghost predicate AreEventsOf(events: seq<Event<NodeState>>, updates: seq<NodeUpdate>, now: nat) {
    |events| <= |updates| && forall i :: 0 <= i < |events| ==> IsEventOf(events[i], updates[i], now)
  }

  lemma OneMoreEvent(before: seq<Event<NodeState>>, events: seq<Event<NodeState>>, updates: seq<NodeUpdate>,
                     e: Event<NodeState>, now: nat)
    requires AreEventsOf(events, updates, now) && |events| < |updates| && IsEventOf(e, updates[|events|], now)
    ensures AreEventsOf(events + [e], updates, now) && before + (events + [e]) == before + events + [e]
  {
  }

  ghost function CleansOf(ids: seq<string>, now: nat): seq<Event<NodeState>> {
    if ids == [] then [] else CleansOf(ids[..|ids| - 1], now) + [Cleans(ids[|ids| - 1], now)]
  }

  lemma CleansOfAppend(before: seq<Event<NodeState>>, ids: seq<string>, id: string, now: nat)
    ensures before + CleansOf(ids + [id], now) == before + CleansOf(ids, now) + [Cleans(id, now)]
  {
    assert (ids + [id])[..|ids|] == ids;
  }

  /** Of `all`, the ids looked at so far, each once, and those still to do. */
  ghost predicate Looked(ids: seq<string>, todo: set<string>, all: set<string>) {
    NoDup(ids) && (forall k :: k in all <==> k in todo || k in ids) && forall k <- ids :: k !in todo
  }

  lemma OneMoreLook(ids: seq<string>, todo: set<string>, all: set<string>, id: string)
    requires Looked(ids, todo, all) && id in todo
    ensures Looked(ids + [id], todo - {id}, all)
  {
  }

  class ClusterState {
    var nodes: map<string, NodeState>
    var suspended: map<string, NodeState>
    var groups: Groups<NodeState>
    var numRunning: int
    const cfg: Config
    /** Every node state ever made, with its contents. */
    ghost var info: map<NodeState, Node>
    /** The node states held by completion callbacks that have not fired yet. */
    ghost var pending: multiset<NodeState>
    ghost var history: seq<Event<NodeState>>

    ghost function Abs(): State<NodeState>
      reads `nodes, `suspended, `groups, `numRunning, `info, `pending
    {
      State(nodes, suspended, groups, numRunning, info, pending)
    }

    ghost predicate Synced()
      reads `info, info.Keys
    {
      forall n <- info :: info[n] == n.Info()
    }

    /** The state is the one the history leads to. */
    ghost predicate Valid()
      reads this, info.Keys
    {
      Synced() && Abs() == Run(cfg, history)
    }

    constructor (cfg: Config)
      ensures Valid() && history == [] && this.cfg == cfg
    {
      nodes, suspended, groups := map[], map[], map["" := Group(map[], map[])];
      numRunning, info, pending, history := 0, map[], multiset{}, [];
      this.cfg := cfg;
    }

    /** Adds to the history an event that has just happened. */
    ghost method Note(e: Event<NodeState>)
      requires Synced() && Abs() == Run(cfg, history + [e])
      modifies this`history
      ensures Valid() && history == old(history) + [e]
    {
      history := history + [e];
    }

    function NumFree(): nat
      reads this
    {
      Max(0, |nodes| - numRunning)
    }

    /** Writes the fields of a node state. */
    method Write(ns: NodeState, node: Node)
      requires Synced() && ns in info && node.id == ns.id
      modifies this`info, ns
      ensures Synced() && info == old(info)[ns := node]
    {
      ns.runningJob, ns.runningTask, ns.snapshotId := node.runningJob, node.runningTask, node.snapshotId;
      ns.timeLost, ns.timeFlaky, ns.readyCh := node.timeLost, node.timeFlaky, node.readyCh;
      assert ns.Info() == node;
      info := info[ns := node];
    }

    /** Takes a node out of the idle ones of its snapshot's group, which goes away when that empties it, and puts it
        among the busy ones of another group, which is made if there is none. */
    method Rebook(ns: NodeState, to: string)
      requires ns.snapshotId in groups
      modifies this`groups
      ensures groups == Rebooked(old(groups), ns.snapshotId, to, ns.id, ns)
    {
      var id, from := ns.id, ns.snapshotId;
      groups := groups[from := groups[from].(idle := groups[from].idle - {id})];
      if from != "" && groups[from].idle.Keys == {} && groups[from].busy.Keys == {} { groups := groups - {from}; }
      if to !in groups { groups := groups[to := Group(map[], map[])]; }
      groups := groups[to := groups[to].(busy := groups[to].busy[id := ns])];
    }

    /** Records that a task was started on a healthy node. */
    method TaskScheduled(id: string, task: TaskDef)
      requires Synced() && id in nodes && Entries(Abs(), id)
      modifies this`groups, this`numRunning, this`pending, this`info, nodes[id]
      ensures Synced() && Abs() == Booked(old(Abs()), nodes[id], task)
    {
      var ns := nodes[id];
      Rebook(ns, task.snapshotId);
      Write(ns, ns.Info().(runningJob := task.ref.job, runningTask := task.ref.task, snapshotId := task.snapshotId));
      numRunning := numRunning + 1;
      pending := pending + multiset{ns};
    }

    /** Writes a node state and puts it among the healthy nodes or the suspended ones. */
    method Place(ns: NodeState, node: Node, healthy: bool)
      requires Synced() && ns in info && node.id == ns.id
      modifies this`nodes, this`suspended, this`info, ns
      ensures Synced() && Abs() == Placed(old(Abs()), ns, node, healthy)
    {
      if healthy {
        nodes, suspended := nodes[node.id := ns], suspended - {node.id};
      } else {
        nodes, suspended := nodes - {node.id}, suspended[node.id := ns];
      }
      Write(ns, node);
    }

    /** Records that a task has finished on the node with this id, if there is one. */
    method TaskCompleted(id: string, flaky: bool, now: nat)
      requires Synced() && Entries(Abs(), id)
      modifies this`nodes, this`suspended, this`groups, this`numRunning, this`info, info.Keys
      ensures Synced() && Abs() == Completed(old(Abs()), id, flaky, now)
    {
      numRunning := numRunning - 1;
      if id !in nodes && id !in suspended { return; }
      var ns := if id in nodes then nodes[id] else suspended[id];
      var g := groups[ns.snapshotId];
      groups := groups[ns.snapshotId := Group(g.idle[id := ns], g.busy - {id})];
      var node := ns.Info().(runningJob := "", runningTask := "");
      if flaky && !node.Suspended() {
        Place(ns, node.(timeFlaky := now), false);
      } else {
        Place(ns, node, id in nodes);
      }
    }

    /** A new node, healthy at once or suspended until it is ready; it starts idle. */
    method Join(ns: NodeState)
      requires Synced() && ns !in info && "" in groups && ns.id !in nodes && ns.id !in suspended
      requires ns.Info() == Fresh(cfg, ns.id)
      modifies this`nodes, this`suspended, this`groups, this`info
      ensures Synced() && Abs() == Joined(old(Abs()), cfg, ns.id, ns)
    {
      info := info[ns := ns.Info()];
      if cfg.hasReadyFn {
        suspended := suspended[ns.id := ns];
      } else {
        nodes := nodes[ns.id := ns];
      }
      groups := groups["" := groups[""].(idle := groups[""].idle[ns.id := ns])];
      assert nodes - {ns.id} == old(nodes) && suspended - {ns.id} == old(suspended);
    }

    /** A node is reported present; `ns` is used if it is a new one. */
    method NodeAdded(id: string, ns: NodeState)
      requires Synced() && Entries(Abs(), id) && ns !in info && ns.Info() == Fresh(cfg, id)
      modifies this`nodes, this`suspended, this`groups, this`info, info.Keys
      ensures Synced() && Abs() == Added(old(Abs()), cfg, id, ns)
    {
      if id in suspended {
        var m := suspended[id];
        if m.readyCh != Open && m.timeLost != 0 {
          Place(m, m.Info().(timeLost := 0), true);
        }
      } else if id !in nodes {
        Join(ns);
      }
    }

    /** A node is reported gone. */
    method NodeRemoved(id: string, now: nat)
      requires Synced() && Entries(Abs(), id)
      modifies this`nodes, this`suspended, this`info, info.Keys
      ensures Synced() && Abs() == Removed(old(Abs()), id, now)
    {
      if id in suspended {
        var m := suspended[id];
        Place(m, m.Info().(timeLost := now, timeFlaky := 0), false);
      } else if id in nodes {
        var m := nodes[id];
        Place(m, m.Info().(timeLost := now), false);
      }
    }

    /** The look at one suspended node in the periodic clean-up. */
    method Clean(id: string, now: nat)
      requires Synced() && Entries(Abs(), id) && id in suspended
      modifies this`nodes, this`suspended, this`groups, this`info, info.Keys
      ensures Synced() && Abs() == Cleaned(old(Abs()), cfg, id, now)
    {
      var ns := suspended[id];
      var node := if ns.readyCh == Open then ns.Info() else ns.Info().(readyCh := Absent);
      if !node.Suspended() {
        Place(ns, node, true);
      } else if node.timeLost != 0 && now - node.timeLost > cfg.maxLost {
        suspended := suspended - {id};
        var g := groups[ns.snapshotId];
        groups := groups[ns.snapshotId := Group(g.idle - {id}, g.busy - {id})];
        Write(ns, node);
      } else if node.timeFlaky != 0 && now - node.timeFlaky > cfg.maxFlaky {
        var again := node.(timeFlaky := 0, snapshotId := "");
        if cfg.hasReadyFn {
          Place(ns, again.(readyCh := Open), false);
        } else {
          Place(ns, again, true);
        }
      } else {
        Place(ns, node, false);
      }
    }

    // -----------------------------------------------------------------------------------------
    // Picking nodes.

    ghost predicate IdleKnown(gs: Groups<NodeState>)
      reads this
    {
      forall g, k :: g in gs && k in gs[g].idle ==> gs[g].idle[k] in info
    }

    /** The first group in `snapIds` with a usable idle node, and the id of such a node. */
    method Pick(gs: Groups<NodeState>, snapIds: seq<string>) returns (r: Option<(string, string)>)
      requires Synced() && IdleKnown(gs)
      ensures r.Some? ==> FirstUsable(Abs(), gs, snapIds, r.value.0, r.value.1)
      ensures r.None? ==> forall j, k :: 0 <= j < |snapIds| ==> !Usable(Abs(), gs, snapIds[j], k)
    {
      for i := 0 to |snapIds|
        invariant forall j, k :: 0 <= j < i ==> !Usable(Abs(), gs, snapIds[j], k)
      {
        var g := snapIds[i];
        if g in gs && exists k :: k in gs[g].idle && !gs[g].idle[k].Info().Suspended() {
          var k :| k in gs[g].idle && !gs[g].idle[k].Info().Suspended();
          return Some((g, k));
        }
      }
      return None;
    }

    ghost predicate NoneUsable(gs: Groups<NodeState>)
      reads this
    {
      forall g, k :: !Usable(Abs(), gs, g, k)
    }

    /** Where assignment stands after `i` tasks; a task goes without only when no usable node is left. */
    ghost predicate After(gs: Groups<NodeState>, order: seq<string>, tasks: seq<TaskDef>, i: nat,
                          batch: seq<Assignment<NodeState>>)
      reads this
    {
      && AssignedInTurn(Abs(), order, tasks, batch) && gs == Left(groups, batch) && gs.Keys == groups.Keys
      && IdleKnown(gs) && |batch| <= i && (|batch| < i ==> NoneUsable(gs))
    }

    lemma Advance(gs: Groups<NodeState>, order: seq<string>, tasks: seq<TaskDef>, i: nat,
                  batch: seq<Assignment<NodeState>>, a: Assignment<NodeState>)
      requires i < |tasks| && After(gs, order, tasks, i, batch) && a.task == tasks[i]
      requires FirstUsable(Abs(), gs, [a.task.snapshotId, ""] + order, a.group, a.id)
      requires a.node == gs[a.group].idle[a.id]
      ensures After(MakeBusy(gs, a.group, a.id), order, tasks, i + 1, batch + [a])
    {
      assert |batch| == i;
      assert (batch + [a])[..i] == batch;
    }

    lemma NoneInAnyGroup(gs: Groups<NodeState>, snapshotId: string, order: seq<string>)
      requires forall g <- gs :: g in order
      requires forall j, k :: 0 <= j < |[snapshotId, ""] + order| ==>
                 !Usable(Abs(), gs, ([snapshotId, ""] + order)[j], k)
      ensures NoneUsable(gs)
    {
      forall g, k ensures !Usable(Abs(), gs, g, k) {
        if g in gs {
          var j :| 0 <= j < |order| && order[j] == g;
          assert ([snapshotId, ""] + order)[j + 2] == g;
        }
      }
    }

    /** Puts tasks on idle nodes of a copy of the groups; `order` lists the groups in whatever order they are met. */
    method Assign(tasks: seq<TaskDef>, order: seq<string>)
      returns (batch: seq<Assignment<NodeState>>, gs: Groups<NodeState>)
      requires Synced() && IdleKnown(groups) && forall g <- groups :: g in order
      ensures After(gs, order, tasks, |tasks|, batch)
    {
      batch, gs := [], groups;
      for i := 0 to |tasks|
        invariant After(gs, order, tasks, i, batch)
      {
        var r := Pick(gs, [tasks[i].snapshotId, ""] + order);
        if r.Some? {
          var (g, k) := r.value;
          var a := Assignment(tasks[i], g, k, gs[g].idle[k]);
          Advance(gs, order, tasks, i, batch, a);
          gs, batch := MakeBusy(gs, g, k), batch + [a];
        } else {
          NoneInAnyGroup(gs, tasks[i].snapshotId, order);
        }
      }
    }

    // -----------------------------------------------------------------------------------------
    // What the scheduler loop does.

    /** Starts the tasks of a batch one by one. */
    method StartAll(batch: seq<Assignment<NodeState>>)
      requires Synced() && CanBookAll(Abs(), batch)
      modifies this`groups, this`numRunning, this`pending, this`info, info.Keys
      ensures Synced() && Abs() == BookedAll(old(Abs()), batch)
    {
      ghost var s := Abs();
      for i := 0 to |batch|
        invariant Synced() && Abs() == BookedAll(s, batch[..i]) && info.Keys == s.info.Keys
      {
        BookOne(s, batch, i);
        TaskScheduled(batch[i].id, batch[i].task);
      }
      assert batch[..|batch|] == batch;
    }

    lemma ReachedIsKnown()
      requires Valid()
      ensures IdleKnown(groups)
    {
      RunKeepsInv(cfg, history, false);
    }

    lemma BatchCanStart(order: seq<string>, tasks: seq<TaskDef>, batch: seq<Assignment<NodeState>>)
      requires Valid() && AssignedInTurn(Abs(), order, tasks, batch)
      ensures var s1 := Abs().(groups := Left(groups, batch));
        CanBookAll(s1, batch) && Run(cfg, history + [Starts(order, tasks, batch)]) == BookedAll(s1, batch)
    {
      RunExtends(cfg, history, Starts(order, tasks, batch));
      RunKeepsInv(cfg, history, false);
      BatchIsReady(Abs(), order, tasks, batch, false);
      FitCanBeBooked(Abs().(groups := Left(groups, batch)), batch);
    }

    method Start(batch: seq<Assignment<NodeState>>, gs: Groups<NodeState>)
      requires Synced() && CanBookAll(Abs().(groups := gs), batch)
      modifies this`groups, this`numRunning, this`pending, this`info, info.Keys
      ensures Synced() && Abs() == BookedAll(old(Abs()).(groups := gs), batch)
    {
      groups := gs;
      StartAll(batch);
    }

    method StartBatch(tasks: seq<TaskDef>, order: seq<string>, batch: seq<Assignment<NodeState>>, gs: Groups<NodeState>)
      requires Valid() && AssignedInTurn(Abs(), order, tasks, batch) && gs == Left(groups, batch)
      modifies this, info.Keys
      ensures Valid() && history == old(history) + [Starts(order, tasks, batch)]
    {
      BatchCanStart(order, tasks, batch);
      Start(batch, gs);
      Note(Starts(order, tasks, batch));
    }

    /** Assigns nodes to tasks and starts them. */
    method StartTasks(tasks: seq<TaskDef>, order: seq<string>) returns (batch: seq<Assignment<NodeState>>)
      requires Valid() && forall g <- groups :: g in order
      modifies this, info.Keys
      ensures Valid() && history == old(history) + [Starts(order, tasks, batch)]
      ensures AssignedInTurn(old(Abs()), order, tasks, batch)
    {
      ReachedIsKnown();
      var gs;
      batch, gs := Assign(tasks, order);
      StartBatch(tasks, order, batch, gs);
    }

    /** The readiness loop of a node found it ready. */
    method BecomeReady(ns: NodeState)
      requires Valid() && ns in info
      modifies this`info, this`history, ns
      ensures Valid() && history == old(history) + [Readies(ns)]
    {
      RunExtends(cfg, history, Readies(ns));
      if ns.readyCh == Open { Write(ns, ns.Info().(readyCh := Closed)); }
      Note(Readies(ns));
    }

    method Appear(id: string) returns (ghost n: NodeState)
      requires Synced() && Entries(Abs(), id)
      modifies this`nodes, this`suspended, this`groups, this`info, info.Keys
      ensures fresh(n) && Synced() && Abs() == Added(old(Abs()), cfg, id, n) && fresh(info.Keys - old(info.Keys))
    {
      var ns := new NodeState(id, if cfg.hasReadyFn then Open else Absent);
      n := ns;
      NodeAdded(id, ns);
    }

    method AddNode(id: string) returns (ghost n: NodeState)
      requires Valid()
      modifies this, info.Keys
      ensures Valid() && history == old(history) + [Joins(id, n)] && fresh(info.Keys - old(info.Keys))
    {
      ReachedHasEntries(id);
      n := Appear(id);
      JoinsIsAdded(cfg, history, id, n);
      Note(Joins(id, n));
    }

    method RemoveNode(id: string, now: nat)
      requires Valid() && now > 0
      modifies this, info.Keys
      ensures Valid() && history == old(history) + [Leaves(id, now)] && info.Keys == old(info.Keys)
    {
      LeavesIsRemoved(cfg, history, id, now);
      NodeRemoved(id, now);
      Note(Leaves(id, now));
    }

    method ApplyUpdate(u: NodeUpdate, now: nat) returns (ghost e: Event<NodeState>)
      requires Valid() && now > 0
      modifies this, info.Keys
      ensures Valid() && history == old(history) + [e] && IsEventOf(e, u, now) && fresh(info.Keys - old(info.Keys))
    {
      match u {
        case NodeAdded(id) =>
          ghost var n := AddNode(id);
          e := Joins(id, n);
        case NodeRemoved(id) =>
          RemoveNode(id, now);
          e := Leaves(id, now);
      }
    }

    lemma ReachedHasEntries(id: string)
      requires Valid()
      ensures Entries(Abs(), id)
    {
      RunKeepsInv(cfg, history, false);
      InvEntries(Abs(), id);
    }

    method ApplyUpdates(updates: seq<NodeUpdate>, now: nat) returns (ghost events: seq<Event<NodeState>>)
      requires Valid() && now > 0
      modifies this, info.Keys
      ensures Valid() && history == old(history) + events && fresh(info.Keys - old(info.Keys))
      ensures |events| == |updates| && AreEventsOf(events, updates, now)
    {
      events := [];
      for i := 0 to |updates|
        invariant Valid() && history == old(history) + events && fresh(info.Keys - old(info.Keys))
        invariant |events| == i && AreEventsOf(events, updates, now)
      {
        ghost var e := ApplyUpdate(updates[i], now);
        OneMoreEvent(old(history), events, updates, e, now);
        events := events + [e];
      }
    }

    lemma CleanIsRun(id: string, now: nat)
      requires Valid() && id in suspended
      ensures Entries(Abs(), id)
      ensures var s' := Cleaned(Abs(), cfg, id, now);
        && Run(cfg, history + [Cleans(id, now)]) == s'
        && suspended.Keys - {id} <= s'.suspended.Keys && s'.info.Keys == info.Keys
    {
      ReachedHasEntries(id);
      RunExtends(cfg, history, Cleans(id, now));
      CleanedLeavesOthers(Abs(), cfg, id, now);
    }

    method CleanNode(id: string, now: nat)
      requires Valid() && id in suspended
      modifies this, info.Keys
      ensures Valid() && history == old(history) + [Cleans(id, now)] && info.Keys == old(info.Keys)
      ensures old(suspended.Keys) - {id} <= suspended.Keys
    {
      CleanIsRun(id, now);
      Clean(id, now);
      Note(Cleans(id, now));
    }

    /** Looks at every suspended node once, in some order. */
    method CleanUp(now: nat) returns (ghost ids: seq<string>)
      requires Valid()
      modifies this, info.Keys
      ensures Valid() && history == old(history) + CleansOf(ids, now)
      ensures NoDup(ids) && forall k :: k in ids <==> k in old(suspended)
    {
      var todo := suspended.Keys;
      ids := [];
      while todo != {}
        invariant Valid() && info.Keys == old(info.Keys) && todo <= suspended.Keys
        invariant history == old(history) + CleansOf(ids, now)
        invariant Looked(ids, todo, old(suspended.Keys))
        decreases |todo|
      {
        var id :| id in todo;
        CleanNode(id, now);
        OneMoreLook(ids, todo, old(suspended.Keys), id);
        CleansOfAppend(old(history), ids, id, now);
        todo, ids := todo - {id}, ids + [id];
      }
    }

    /** One update of the cluster state: the reports in order, then a look at the suspended nodes. */
    method Update(updates: seq<NodeUpdate>, now: nat)
      returns (ghost events: seq<Event<NodeState>>, ghost ids: seq<string>)
      requires Valid() && now > 0
      modifies this, info.Keys
      ensures Valid() && NoDup(ids)
      ensures history == old(history) + events + CleansOf(ids, now)
      ensures |events| == |updates| && AreEventsOf(events, updates, now)
      ensures forall k :: k in ids <==> k in Run(cfg, old(history) + events).suspended
    {
      events := ApplyUpdates(updates, now);
      ids := CleanUp(now);
    }

    /** The id a callback reports: the node must still be the very object the cluster knows under that id. */
    method ReportedId(ns: NodeState) returns (id: string)
      requires Synced() && ns in info
      ensures id == Reported(Abs(), ns)
    {
      id := if ns.id in nodes && nodes[ns.id] == ns then ns.id else ns.id + ERROR_SUFFIX;
    }

    method Fire(ns: NodeState, flaky: bool, now: nat)
      requires Synced() && ns in info && Entries(Abs(), Reported(Abs(), ns))
      modifies this`nodes, this`suspended, this`groups, this`numRunning, this`pending, this`info, info.Keys
      ensures Synced() && Abs() == Fired(old(Abs()), ns, flaky, now)
    {
      var id := ReportedId(ns);
      TaskCompleted(id, flaky, now);
      pending := pending - multiset{ns};
    }

    /** The completion callback of a task that was started on `ns`. */
    method Complete(ns: NodeState, flaky: bool, now: nat)
      requires Valid() && ns in pending && now > 0
      modifies this, info.Keys
      ensures Valid() && history == old(history) + [Fires(ns, flaky, now)]
    {
      FiresIsFired(cfg, history, ns, flaky, now);
      Fire(ns, flaky, now);
      Note(Fires(ns, flaky, now));
    }
  }
}
