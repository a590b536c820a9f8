/** Every run of the cluster state: batches of tasks started, completions, nodes joining, leaving, being looked
    at and becoming ready, in any order. User-initiated updates are not among the events. */
module ClusterRuns {
  import opened TaskGroups
  import opened ClusterSpec

  datatype Event<N> =
    | Starts(order: seq<string>, tasks: seq<TaskDef>, batch: seq<Assignment<N>>)
    | Fires(node: N, flaky: bool, now: nat)
    | Joins(id: string, node: N)
    | Leaves(id: string, now: nat)
    | Cleans(id: string, now: nat)
    | Readies(node: N)

  /** New node states are new, and clocks do not show the unset time. */
  ghost predicate Enabled<N>(s: State<N>, e: Event<N>) {
    match e
    case Starts(order, tasks, batch) => AssignedInTurn(s, order, tasks, batch)
    case Fires(n, _, now) => n in s.pending && now > 0
    case Joins(id, n) => n !in s.info
    case Leaves(_, now) => now > 0
    case Cleans(_, _) => true
    case Readies(n) => n in s.info
  }

  /** The groups change first, then each task starts. */
  ghost function Started<N>(s: State<N>, batch: seq<Assignment<N>>): State<N> {
    BookedAll(s.(groups := Left(s.groups, batch)), batch)
  }

  /** The source code looks up no node, group or map entry that is not there. */
  ghost predicate Defined<N>(s: State<N>, e: Event<N>) {
    match e
    case Starts(_, _, _) => true
    case Fires(n, _, _) => n in s.info && Entries(s, Reported(s, n))
    case Joins(id, _) => Entries(s, id)
    case Leaves(id, _) => Entries(s, id)
    case Cleans(id, _) => Entries(s, id)
    case Readies(n) => n in s.info
  }

  ghost function Next<N>(s: State<N>, cfg: Config, e: Event<N>): State<N>
    requires Defined(s, e)
  {
    match e
    case Starts(_, _, batch) => Started(s, batch)
    case Fires(n, flaky, now) => Fired(s, n, flaky, now)
    case Joins(id, n) => Added(s, cfg, id, n)
    case Leaves(id, now) => Removed(s, id, now)
    case Cleans(id, now) => Cleaned(s, cfg, id, now)
    case Readies(n) => BecameReady(s, n)
  }

  /** Before its tasks start, a batch is still fit and no longer idle. */
  lemma BatchIsReady<N>(s: State<N>, order: seq<string>, tasks: seq<TaskDef>, batch: seq<Assignment<N>>, apart: bool)
    requires Inv(s, apart) && AssignedInTurn(s, order, tasks, batch)
    ensures var s1 := s.(groups := Left(s.groups, batch)); Inv(s1, apart) && FitBatch(s1, s1.groups, batch, apart)
  {
    BatchIsFit(s, order, tasks, batch, apart);
    var s1 := s.(groups := Left(s.groups, batch));
    SameMaps(s, s1);
    MovedKeepsFit(s, s1, batch, apart);
  }

  /** A batch puts exactly one more task on each of its nodes and changes no other. */
  lemma StartedKeepsInv<N>(s: State<N>, order: seq<string>, tasks: seq<TaskDef>, batch: seq<Assignment<N>>,
                           apart: bool)
    requires Inv(s, apart) && AssignedInTurn(s, order, tasks, batch)
    ensures Inv(Started(s, batch), apart)
    ensures OnlyStarted(s.(groups := Left(s.groups, batch)), Started(s, batch), Nodes(batch))
  {
    BatchIsReady(s, order, tasks, batch, apart);
    BookedAllKeepsInv(s.(groups := Left(s.groups, batch)), batch, apart);
  }

  lemma MovedKeepsFit<N>(s: State<N>, s1: State<N>, batch: seq<Assignment<N>>, apart: bool)
    requires s1 == s.(groups := s1.groups) && SameLive(s, s1)
    requires FitBatch(s, s1.groups, batch, apart) && GroupsOk(s, s1.groups, apart)
    ensures FitBatch(s1, s1.groups, batch, apart) && GroupsOk(s1, s1.groups, apart)
  {
  }

  /** At each point of the batch, the next task's node is still there. */
  ghost predicate CanBookAll<N>(s: State<N>, batch: seq<Assignment<N>>) {
    batch == [] ||
    var init, a := batch[..|batch| - 1], batch[|batch| - 1];
    var s1 := BookedAll(s, init);
    CanBookAll(s, init) && Entries(s1, a.id) && a.id in s1.nodes && s1.nodes[a.id] == a.node
  }

  lemma {:induction false} FitCanBeBooked<N>(s: State<N>, batch: seq<Assignment<N>>)
    requires Inv(s, false) && FitBatch(s, s.groups, batch, false)
    ensures CanBookAll(s, batch)
  {
    if batch != [] {
      var init, a := batch[..|batch| - 1], batch[|batch| - 1];
      assert Healthy(s, a.node) && s.info[a.node].id == a.id;
      FitPrefix(s, batch, |batch| - 1, false);
      FitCanBeBooked(s, init);
      BookedAllKeepsInv(s, init, false);
      InvEntries(BookedAll(s, init), a.id);
    }
  }

  lemma {:induction false} BookOne<N>(s: State<N>, batch: seq<Assignment<N>>, i: nat)
    requires CanBookAll(s, batch) && i < |batch|
    ensures var s1, a := BookedAll(s, batch[..i]), batch[i];
      && Entries(s1, a.id) && a.id in s1.nodes && s1.nodes[a.id] == a.node
      && BookedAll(s, batch[..i + 1]) == Booked(s1, a.node, a.task)
  {
    var init := batch[..|batch| - 1];
    if i < |init| {
      assert init[..i] == batch[..i] && init[..i + 1] == batch[..i + 1] && init[i] == batch[i];
      BookOne(s, init, i);
    } else {
      assert batch[..i + 1] == batch && batch[..i] == init;
    }
  }

  /** The ids an event brings in. */
  ghost function NewIds<N>(e: Event<N>): set<string> { if e.Joins? then {e.id} else {} }

  ghost function JoinedIds<N>(events: seq<Event<N>>): set<string> {
    if events == [] then {} else JoinedIds(events[..|events| - 1]) + NewIds(events[|events| - 1])
  }

  /** No event breaks the invariant, or finds an entry missing. */
  lemma NextKeepsInv<N>(s: State<N>, cfg: Config, e: Event<N>, apart: bool)
    requires Inv(s, apart) && Enabled(s, e) && (apart && e.Joins? ==> NewIdApart(s.info, e.id))
    ensures Defined(s, e) && Inv(Next(s, cfg, e), apart)
  {
    match e
    case Starts(order, tasks, batch) => StartedKeepsInv(s, order, tasks, batch, apart);
    case Fires(n, flaky, now) => FiredKeepsInv(s, n, flaky, now, apart);
    case Joins(id, n) => AddedKeepsInv(s, cfg, id, n, apart);
    case Leaves(id, now) => RemovedKeepsInv(s, id, now, apart);
    case Cleans(id, now) => CleanedKeepsInv(s, cfg, id, now, apart);
    case Readies(n) => BecameReadyKeepsInv(s, n, apart);
  }

  lemma NextKeepsIds<N>(s: State<N>, cfg: Config, e: Event<N>, ids: set<string>)
    requires Inv(s, false) && Enabled(s, e) && Defined(s, e) && IdsWithin(s.info, ids)
    ensures IdsWithin(Next(s, cfg, e).info, ids + NewIds(e))
  {
    match e
    case Starts(order, tasks, batch) => StartedKeepsIds(s, order, tasks, batch, ids);
    case Fires(n, flaky, now) => CompletedKeepsIds(s, Reported(s, n), flaky, now);
    case Joins(id, n) => AddedKeepsIds(s, cfg, id, n);
    case Leaves(id, now) => RemovedKeepsIds(s, id, now);
    case Cleans(id, now) => CleanedKeepsIds(s, cfg, id, now);
    case Readies(n) =>
  }

  lemma StartedKeepsIds<N>(s: State<N>, order: seq<string>, tasks: seq<TaskDef>, batch: seq<Assignment<N>>,
                           ids: set<string>)
    requires Inv(s, false) && AssignedInTurn(s, order, tasks, batch) && IdsWithin(s.info, ids)
    ensures IdsWithin(Started(s, batch).info, ids)
  {
    StartedKeepsInv(s, order, tasks, batch, false);
    var s' := Started(s, batch);
    forall n | n in s'.info ensures s'.info[n].id in ids {
      assert SameStanding(s'.info[n], s.info[n]);
    }
  }

  ghost function Start<N>(): State<N> { State(map[], map[], map["" := Group(map[], map[])], 0, map[], multiset{}) }

  /** The state after some events; one that cannot happen is skipped. */
  ghost function Run<N>(cfg: Config, events: seq<Event<N>>): State<N> {
    if events == [] then Start() else
    var before, e := Run(cfg, events[..|events| - 1]), events[|events| - 1];
    if Enabled(before, e) && Defined(before, e) then Next(before, cfg, e) else before
  }

  /** The invariant of every run; and the stronger one of every run whose workers' ids are apart. */
  lemma {:induction false} RunKeepsInv<N>(cfg: Config, events: seq<Event<N>>, apart: bool)
    requires apart ==> Apart(JoinedIds(events))
    ensures Inv(Run(cfg, events), apart) && IdsWithin(Run(cfg, events).info, JoinedIds(events))
  {
    if events != [] {
      var init := events[..|events| - 1];
      var before, e := Run(cfg, init), events[|events| - 1];
      RunKeepsInv(cfg, init, apart);
      if Enabled(before, e) { StepKeepsInv(before, cfg, e, JoinedIds(init), apart); }
    }
  }

  lemma StepKeepsInv<N>(s: State<N>, cfg: Config, e: Event<N>, ids: set<string>, apart: bool)
    requires Inv(s, apart) && Enabled(s, e) && IdsWithin(s.info, ids) && (apart ==> Apart(ids + NewIds(e)))
    ensures Defined(s, e) && Inv(Next(s, cfg, e), apart) && IdsWithin(Next(s, cfg, e).info, ids + NewIds(e))
  {
    NextKeepsInv(s, cfg, e, apart);
    WeakerInv(s, apart);
    NextKeepsIds(s, cfg, e, ids);
  }

  lemma WeakerInv<N>(s: State<N>, apart: bool)
    requires Inv(s, apart)
    ensures Inv(s, false)
  {
  }

  lemma RunExtends<N>(cfg: Config, events: seq<Event<N>>, e: Event<N>)
    requires Enabled(Run(cfg, events), e)
    ensures Defined(Run(cfg, events), e) && Run(cfg, events + [e]) == Next(Run(cfg, events), cfg, e)
  {
    assert (events + [e])[..|events|] == events;
    RunKeepsInv(cfg, events, false);
    NextKeepsInv(Run(cfg, events), cfg, e, false);
  }

  lemma JoinsIsAdded<N>(cfg: Config, events: seq<Event<N>>, id: string, n: N)
    requires n !in Run(cfg, events).info
    ensures var s := Run(cfg, events);
      Entries(s, id) && Run(cfg, events + [Joins(id, n)]) == Added(s, cfg, id, n)
  {
    RunExtends(cfg, events, Joins(id, n));
  }

  lemma LeavesIsRemoved<N>(cfg: Config, events: seq<Event<N>>, id: string, now: nat)
    requires now > 0
    ensures var s := Run(cfg, events);
      && Entries(s, id) && Run(cfg, events + [Leaves(id, now)]) == Removed(s, id, now)
      && Removed(s, id, now).info.Keys == s.info.Keys
  {
    RunExtends(cfg, events, Leaves(id, now));
  }

  lemma FiresIsFired<N>(cfg: Config, events: seq<Event<N>>, n: N, flaky: bool, now: nat)
    requires n in Run(cfg, events).pending && now > 0
    ensures var s := Run(cfg, events);
      && n in s.info && Entries(s, Reported(s, n))
      && Run(cfg, events + [Fires(n, flaky, now)]) == Fired(s, n, flaky, now)
      && Fired(s, n, flaky, now).info.Keys == s.info.Keys
  {
    RunExtends(cfg, events, Fires(n, flaky, now));
  }

  /** Some run of the cluster, of workers with ids among `ids`, leads here. */
  ghost predicate Reachable<N(!new)>(cfg: Config, s: State<N>, ids: set<string>) {
    exists events: seq<Event<N>> :: JoinedIds(events) <= ids && Run(cfg, events) == s
  }

  lemma ReachableInv<N(!new)>(cfg: Config, s: State<N>, ids: set<string>)
    requires Reachable(cfg, s, ids)
    ensures Inv(s, Apart(ids))
  {
    var events: seq<Event<N>> :| JoinedIds(events) <= ids && Run(cfg, events) == s;
    RunKeepsInv(cfg, events, Apart(ids));
  }

  lemma StepIsReachable<N(!new)>(cfg: Config, s: State<N>, e: Event<N>, ids: set<string>)
    requires Reachable(cfg, s, ids) && Enabled(s, e)
    ensures Defined(s, e) && Reachable(cfg, Next(s, cfg, e), ids + NewIds(e))
  {
    var events: seq<Event<N>> :| JoinedIds(events) <= ids && Run(cfg, events) == s;
    RunExtends(cfg, events, e);
    assert (events + [e])[..|events|] == events;
    assert JoinedIds(events + [e]) <= ids + NewIds(e);
  }

  /** Nodes coming and going leave the tasks that run alone. */
  lemma ClusterEventsKeepPending<N>(s: State<N>, cfg: Config, e: Event<N>)
    requires Defined(s, e) && !e.Starts? && !e.Fires?
    ensures Next(s, cfg, e).pending == s.pending && Next(s, cfg, e).numRunning == s.numRunning
  {
  }

  lemma FiresCounts<N>(s: State<N>, cfg: Config, n: N, flaky: bool, now: nat)
    requires Defined(s, Fires(n, flaky, now))
    ensures var s' := Next(s, cfg, Fires(n, flaky, now));
      s'.pending == s.pending - multiset{n} && s'.numRunning == s.numRunning - 1
  {
  }

  lemma StartsCounts<N>(s: State<N>, order: seq<string>, tasks: seq<TaskDef>, batch: seq<Assignment<N>>)
    requires Inv(s, false) && AssignedInTurn(s, order, tasks, batch)
    ensures var s' := Started(s, batch);
      s'.pending == s.pending + Nodes(batch) && s'.numRunning == s.numRunning + |batch|
  {
    StartedKeepsInv(s, order, tasks, batch, false);
    NodesSize(batch);
  }

  lemma {:induction false} NodesSize<N>(batch: seq<Assignment<N>>)
    ensures |Nodes(batch)| == |batch|
  {
    if batch != [] { NodesSize(batch[..|batch| - 1]); }
  }

  /** No node state has two tasks outstanding. */
  ghost predicate OneEach<N>(pending: multiset<N>) { forall n <- pending :: pending[n] == 1 }

  /** In every run, whatever batch is assigned next goes to healthy, current nodes, and the counter counts the tasks
      outstanding; with the workers' ids apart, the nodes of the batch are all different and without a task, and no
      node state ever has two tasks outstanding. */
  lemma NoDoubleBooking<N>(cfg: Config, events: seq<Event<N>>, order: seq<string>, tasks: seq<TaskDef>,
                           batch: seq<Assignment<N>>)
    ensures var s, apart := Run<N>(cfg, events), Apart(JoinedIds(events));
      && (AssignedInTurn(s, order, tasks, batch) ==> FitBatch(s, Left(s.groups, batch), batch, apart))
      && s.numRunning == |s.pending| && (apart ==> OneEach(s.pending))
  {
    var s, apart := Run<N>(cfg, events), Apart(JoinedIds(events));
    RunKeepsInv(cfg, events, apart);
    if AssignedInTurn(s, order, tasks, batch) { BatchIsFit(s, order, tasks, batch, apart); }
  }
}
