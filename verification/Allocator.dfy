/** getTaskAssignments up to the choice of nodes: which waiting tasks get one of the free nodes. */
module Allocator {
  import opened JobSpec
  import opened Sequences
  import opened TaskGroups
  import opened Quotas

  // -------------------------------------------------------------------------------------------
  // Plans: what the first pass decides, group by group.

  /** The decision for the requestor and tag of `job`: the requestor's first `k` jobs were read, these tasks
      seen waiting, so many of them computed as the group's minimum, and `taken` of them given a node. */
  datatype Plan = Plan(job: JobView, k: nat, unsched: seq<TaskRef>, minimum: nat, taken: nat)
  {
    ghost predicate Sized() { taken <= minimum <= |unsched| && job.priority < 3 }
  }

  /** The group's minimum: its tasks scaled to the cluster, no more than wait, less those already running. */
  function Minimum(unsched: nat, numTasks: nat, numRunning: int, scale: real): nat {
    Max(0, Min(unsched, Ceil(numTasks as real * scale)) - numRunning)
  }

  /** The minimum is the least number of nodes that, with those the group already has, give it one for each waiting task
      or its scaled share of all its tasks, whichever is less. */
  lemma MinimumIsLeast(unsched: nat, numTasks: nat, numRunning: int, scale: real)
    ensures var m, share := Minimum(unsched, numTasks, numRunning, scale), numTasks as real * scale;
      && (m + numRunning >= unsched || (m + numRunning) as real >= share)
      && (m > 0 ==> m + numRunning - 1 < unsched && (m + numRunning - 1) as real < share)
  {
    var m, share := Minimum(unsched, numTasks, numRunning, scale), numTasks as real * scale;
    assert Ceil(share) as real >= share && Ceil(share) as real - 1.0 < share;
  }

  ghost predicate PlanFollows(plan: Plan, requestors: map<string, seq<JobView>>, scale: seq<real>, avail: nat)
    requires |scale| == 3
  {
    && plan.job.requestor in requestors && plan.Sized()
    && var mine := requestors[plan.job.requestor];
    && StopsAt(mine, plan.job.tag, avail, plan.k)
    && plan.unsched == Group(mine[..plan.k], plan.job.tag) != []
    && plan.minimum == Minimum(|plan.unsched|, GroupTasks(mine[..plan.k], plan.job.tag),
                               GroupRunning(mine[..plan.k], plan.job.tag), scale[plan.job.priority])
    && plan.taken == Min(avail, plan.minimum)
  }

  ghost function Keys(plans: seq<Plan>): set<(string, string)> {
    set p | p in plans :: (p.job.requestor, p.job.tag)
  }

  /** All waiting tasks the plans saw. */
  ghost function Seen(plans: seq<Plan>): seq<TaskRef> {
    if plans == [] then [] else Seen(plans[..|plans| - 1]) + plans[|plans| - 1].unsched
  }

  /** Appends a task list to those of a priority, unless it is empty. */
  function AddList(r: Remaining, p: nat, list: seq<TaskRef>): Remaining
    requires p < 3
  {
    if list == [] then r else r[p := r[p] + [list]]
  }

  /** Tasks chosen, task lists of unmet minimums, task lists beyond the minimums, and nodes left. */
  datatype Pass = Pass(chosen: seq<TaskRef>, required: Remaining, optional: Remaining, free: int)

  /** A group's first `taken` tasks are chosen, the rest of its minimum stays required, all else is optional. */
  function AddPlan(s: Pass, priority: nat, unsched: seq<TaskRef>, minimum: nat, taken: nat): Pass
    requires taken <= minimum <= |unsched| && priority < 3
  {
    Pass(s.chosen + unsched[..taken], AddList(s.required, priority, unsched[taken..minimum]),
         AddList(s.optional, priority, unsched[minimum..]), s.free - taken)
  }

  ghost function PassOf(plans: seq<Plan>, free0: nat): Pass {
    if plans == [] then Pass([], [[], [], []], [[], [], []], free0) else
    var before, p := PassOf(plans[..|plans| - 1], free0), plans[|plans| - 1];
    if p.Sized() then AddPlan(before, p.job.priority, p.unsched, p.minimum, p.taken) else before
  }

  /** Each plan is for a new requestor and tag, no higher in priority than the one before, and follows from the
      jobs and the nodes left; none follows once the nodes are gone. */
  ghost predicate PlansFollow(plans: seq<Plan>, requestors: map<string, seq<JobView>>, scale: seq<real>, free0: nat)
    requires |scale| == 3
  {
    plans == [] ||
    var before, plan := plans[..|plans| - 1], plans[|plans| - 1];
    && PlansFollow(before, requestors, scale, free0)
    && (before != [] ==> before[|before| - 1].job.priority >= plan.job.priority)
    && (plan.job.requestor, plan.job.tag) !in Keys(before)
    && PassOf(before, free0).free > 0 && PlanFollows(plan, requestors, scale, PassOf(before, free0).free)
  }

  /** Splits a group's waiting tasks into those taken, the rest of the minimum, and the optional rest. */
  method AddGroup(s: Pass, unsched: seq<TaskRef>, minimum: nat, priority: nat) returns (s': Pass)
    requires s.free > 0 && minimum <= |unsched| && priority < 3
    ensures s' == AddPlan(s, priority, unsched, minimum, Min(s.free, minimum))
  {
    var numDesiredUnmet := Max(0, minimum - s.free);
    var numSchedulable := Min(s.free, minimum);
    s' := s;
    if numSchedulable > 0 {
      s' := s'.(chosen := s'.chosen + unsched[..numSchedulable], free := s'.free - numSchedulable);
    }
    if numDesiredUnmet > 0 {
      s' := s'.(required := s.required[priority := s.required[priority] +
                                       [unsched[numSchedulable..numSchedulable + numDesiredUnmet]]]);
    }
    if numSchedulable + numDesiredUnmet < |unsched| {
      var rest := unsched[numSchedulable + numDesiredUnmet..];
      s' := s'.(optional := s.optional[priority := s.optional[priority] + [rest]]);
    }
    assert s.chosen + [] == s.chosen;
  }

  /** One iteration of the first pass: gathers the group of `job` and, if a task waits there, plans for it. */
  method HandleGroup(job: JobView, mine: seq<JobView>, scale: real, s: Pass) returns (s': Pass, ghost plan: Plan)
    requires s.free > 0 && job.priority < 3 && forall v <- mine :: CountersAgree(v.job)
    ensures plan.job == job && StopsAt(mine, job.tag, s.free, plan.k) && plan.unsched == Group(mine[..plan.k], job.tag)
    ensures plan.minimum == Minimum(|plan.unsched|, GroupTasks(mine[..plan.k], job.tag),
                                    GroupRunning(mine[..plan.k], job.tag), scale)
    ensures plan.taken == Min(s.free, plan.minimum) && plan.Sized()
    ensures s' == if plan.unsched == [] then s else AddPlan(s, job.priority, plan.unsched, plan.minimum, plan.taken)
  {
    var unsched, numTasks, numRunning, k := Gather(mine, job.tag, s.free);
    GroupSizes(mine[..k], job.tag);
    var minimum := Minimum(|unsched|, numTasks, numRunning, scale);
    plan := Plan(job, k, unsched, minimum, Min(s.free, minimum));
    if unsched == [] { return s, plan; }
    s' := AddGroup(s, unsched, minimum, job.priority);
  }

  // -------------------------------------------------------------------------------------------
  // The first pass.

  /** The two views of the jobs agree: the requestor map holds each job under its requestor. */
  ghost predicate Consistent(jobs: seq<JobView>, requestors: map<string, seq<JobView>>) {
    && WellFormedJobs(jobs)
    && (forall r <- requestors ::
          WellFormedJobs(requestors[r]) && forall v <- requestors[r] :: v in jobs && v.requestor == r)
    && (forall v <- jobs :: v.requestor in requestors && v in requestors[v.requestor])
  }

  ghost predicate HasWaiting(jobs: seq<JobView>, d: (string, string)) {
    exists v :: v in jobs && (v.requestor, v.tag) == d && Waiting(v) != []
  }

  /** The jobs split by priority. */
  ghost predicate Bucketed(buckets: seq<seq<JobView>>, jobs: seq<JobView>) {
    && |buckets| == 3
    && forall p, v :: 0 <= p < 3 ==> (v in buckets[p] <==> v in jobs && v.priority == p)
  }

  /** A handled group that had waiting tasks shows some of them. */
  lemma GroupIsSeen(jobs: seq<JobView>, requestors: map<string, seq<JobView>>, requestor: string, tag: string, k: nat,
                    avail: nat)
    requires Consistent(jobs, requestors) && requestor in requestors && avail > 0
    requires StopsAt(requestors[requestor], tag, avail, k)
    ensures HasWaiting(jobs, (requestor, tag)) ==> Group(requestors[requestor][..k], tag) != []
  {
    var all := requestors[requestor];
    if HasWaiting(jobs, (requestor, tag)) && k == |all| {
      var v :| v in jobs && (v.requestor, v.tag) == (requestor, tag) && Waiting(v) != [];
      assert all[..k] == all && v in all;
      GroupMembers(all, tag);
      assert InGroup(all, tag, Waiting(v)[0]);
    }
  }

  lemma PlansGrow(plans: seq<Plan>, plan: Plan, requestors: map<string, seq<JobView>>, scale: seq<real>, free0: nat)
    requires |scale| == 3 && PlansFollow(plans, requestors, scale, free0) && PassOf(plans, free0).free > 0
    requires PlanFollows(plan, requestors, scale, PassOf(plans, free0).free)
    requires plans != [] ==> plans[|plans| - 1].job.priority >= plan.job.priority
    requires (plan.job.requestor, plan.job.tag) !in Keys(plans)
    ensures PlansFollow(plans + [plan], requestors, scale, free0)
    ensures PassOf(plans + [plan], free0) ==
            AddPlan(PassOf(plans, free0), plan.job.priority, plan.unsched, plan.minimum, plan.taken)
  {
    assert (plans + [plan])[..|plans|] == plans;
  }

  lemma KeysOfGrown(plans: seq<Plan>, plan: Plan)
    ensures Keys(plans + [plan]) == Keys(plans) + {(plan.job.requestor, plan.job.tag)}
  {
    forall d | d in Keys(plans) + {(plan.job.requestor, plan.job.tag)} ensures d in Keys(plans + [plan]) {
      if d in Keys(plans) {
        var p :| p in plans && (p.job.requestor, p.job.tag) == d;
        assert p in plans + [plan];
      } else {
        assert plan in plans + [plan];
      }
    }
  }

  /** Every requestor and tag looked at has a plan unless nothing waits there. */
  ghost predicate Covers(jobs: seq<JobView>, plans: seq<Plan>, tagsSeen: set<(string, string)>) {
    Keys(plans) <= tagsSeen && forall d <- tagsSeen :: HasWaiting(jobs, d) ==> d in Keys(plans)
  }

  function Key(v: JobView): (string, string) { (v.requestor, v.tag) }

  /** The position of the first job with this requestor and tag, or the number of jobs. */
  ghost function FirstOf(jobs: seq<JobView>, d: (string, string)): (i: nat)
    ensures i <= |jobs| && (i < |jobs| ==> Key(jobs[i]) == d) && forall j :: 0 <= j < i ==> Key(jobs[j]) != d
  {
    if jobs == [] || Key(jobs[0]) == d then 0 else 1 + FirstOf(jobs[1..], d)
  }

  /** Each plan is for the first of these jobs with its requestor and tag, and the plans are in the order of the
      jobs. */
  ghost predicate InTurn(plans: seq<Plan>, done: seq<JobView>) {
    && (forall i :: 0 <= i < |plans| ==>
          FirstOf(done, Key(plans[i].job)) < |done| && done[FirstOf(done, Key(plans[i].job))] == plans[i].job)
    && (forall i, j :: 0 <= i < j < |plans| ==> FirstOf(done, Key(plans[i].job)) < FirstOf(done, Key(plans[j].job)))
  }

  ghost predicate AreKeys(seen: set<(string, string)>, done: seq<JobView>) {
    forall d :: d in seen <==> FirstOf(done, d) < |done|
  }

  lemma FirstOfGrown(done: seq<JobView>, v: JobView, d: (string, string))
    ensures FirstOf(done + [v], d) ==
            if FirstOf(done, d) < |done| || Key(v) == d then FirstOf(done, d) else |done| + 1
  {
    var i, j := FirstOf(done, d), FirstOf(done + [v], d);
    assert forall k :: 0 <= k < |done| ==> (done + [v])[k] == done[k];
    assert (done + [v])[|done|] == v;
  }

  lemma KeysGrow(seen: set<(string, string)>, done: seq<JobView>, v: JobView)
    requires AreKeys(seen, done)
    ensures AreKeys(seen + {Key(v)}, done + [v])
  {
    forall d ensures d in seen + {Key(v)} <==> FirstOf(done + [v], d) < |done| + 1 { FirstOfGrown(done, v, d); }
  }

  lemma TurnGoesOn(plans: seq<Plan>, done: seq<JobView>, v: JobView)
    requires InTurn(plans, done)
    ensures InTurn(plans, done + [v])
  {
    forall i | 0 <= i < |plans| ensures FirstOf(done + [v], Key(plans[i].job)) == FirstOf(done, Key(plans[i].job)) {
      FirstOfGrown(done, v, Key(plans[i].job));
    }
  }

  ghost predicate Leads(done: seq<JobView>, v: JobView, i: nat) {
    i < |done| && FirstOf(done, Key(v)) == i && done[i] == v
  }

  lemma TurnGrows(plans: seq<Plan>, done: seq<JobView>, plan: Plan)
    requires InTurn(plans, done) && FirstOf(done, Key(plan.job)) == |done|
    ensures InTurn(plans + [plan], done + [plan.job])
  {
    var all, done' := plans + [plan], done + [plan.job];
    forall i | 0 <= i < |all|
      ensures Leads(done', all[i].job, if i < |plans| then FirstOf(done, Key(plans[i].job)) else |done|)
    {
      FirstOfGrown(done, plan.job, Key(all[i].job));
    }
    forall i, j | 0 <= i < j < |all| ensures FirstOf(done', Key(all[i].job)) < FirstOf(done', Key(all[j].job)) {
      assert Leads(done', all[i].job, FirstOf(done, Key(plans[i].job)));
      if j < |plans| { assert Leads(done', all[j].job, FirstOf(done, Key(plans[j].job))); }
    }
  }

  /** Where the first pass stands after these jobs: its lists are those of its plans, which follow from the jobs. */
  ghost predicate At(s: Pass, plans: seq<Plan>, seen: set<(string, string)>, jobs: seq<JobView>,
                     requestors: map<string, seq<JobView>>, scale: seq<real>, free0: nat, p: nat, done: seq<JobView>)
    requires |scale| == 3
  {
    && s == PassOf(plans, free0) && PlansFollow(plans, requestors, scale, free0) && Covers(jobs, plans, seen)
    && (plans != [] ==> plans[|plans| - 1].job.priority >= p)
    && InTurn(plans, done) && AreKeys(seen, done)
  }

  lemma SeenJobPasses(s: Pass, plans: seq<Plan>, seen: set<(string, string)>, jobs: seq<JobView>,
                      requestors: map<string, seq<JobView>>, scale: seq<real>, free0: nat, job: JobView,
                      done: seq<JobView>)
    requires |scale| == 3 && At(s, plans, seen, jobs, requestors, scale, free0, job.priority, done)
    requires Key(job) in seen || !HasWaiting(jobs, Key(job))
    ensures At(s, plans, seen + {Key(job)}, jobs, requestors, scale, free0, job.priority, done + [job])
  {
    KeysGrow(seen, done, job);
    TurnGoesOn(plans, done, job);
  }

  lemma NewJobIsPlanned(s: Pass, plans: seq<Plan>, seen: set<(string, string)>, jobs: seq<JobView>,
                        requestors: map<string, seq<JobView>>, scale: seq<real>, free0: nat, plan: Plan,
                        done: seq<JobView>)
    requires |scale| == 3 && At(s, plans, seen, jobs, requestors, scale, free0, plan.job.priority, done)
    requires Key(plan.job) !in seen && s.free > 0 && PlanFollows(plan, requestors, scale, s.free)
    ensures At(AddPlan(s, plan.job.priority, plan.unsched, plan.minimum, plan.taken), plans + [plan],
               seen + {Key(plan.job)}, jobs, requestors, scale, free0, plan.job.priority, done + [plan.job])
  {
    KeysGrow(seen, done, plan.job);
    TurnGrows(plans, done, plan);
    PlansGrow(plans, plan, requestors, scale, free0);
    KeysOfGrown(plans, plan);
  }

  /** Plans for the requestor and tag of `job` unless that was done before. */
  method ConsiderJob(job: JobView, ghost jobs: seq<JobView>, requestors: map<string, seq<JobView>>, scale: seq<real>,
                     s: Pass, ghost free0: nat, ghost plans: seq<Plan>, seen: set<(string, string)>,
                     ghost done: seq<JobView>)
    returns (s': Pass, ghost plans': seq<Plan>, seen': set<(string, string)>)
    requires Consistent(jobs, requestors) && |scale| == 3 && job in jobs && s.free > 0
    requires At(s, plans, seen, jobs, requestors, scale, free0, job.priority, done)
    ensures At(s', plans', seen', jobs, requestors, scale, free0, job.priority, done + [job])
  {
    s', plans', seen' := s, plans, seen + {Key(job)};
    if Key(job) in seen {
      SeenJobPasses(s, plans, seen, jobs, requestors, scale, free0, job, done);
      return;
    }
    ghost var plan;
    s', plan := HandleGroup(job, requestors[job.requestor], scale[job.priority], s);
    GroupIsSeen(jobs, requestors, job.requestor, job.tag, plan.k, s.free);
    if plan.unsched == [] {
      SeenJobPasses(s, plans, seen, jobs, requestors, scale, free0, job, done);
    } else {
      NewJobIsPlanned(s, plans, seen, jobs, requestors, scale, free0, plan, done);
      plans' := plans + [plan];
    }
  }

  /** The jobs of one priority, until the nodes run out. */
  method PassPriority(buckets: seq<seq<JobView>>, p: nat, ghost jobs: seq<JobView>,
                      requestors: map<string, seq<JobView>>, scale: seq<real>, s0: Pass, ghost free0: nat,
                      ghost plans0: seq<Plan>, seen0: set<(string, string)>, ghost done0: seq<JobView>)
    returns (s: Pass, ghost plans: seq<Plan>, seen: set<(string, string)>, ghost n: nat)
    requires Consistent(jobs, requestors) && |scale| == 3 && Bucketed(buckets, jobs) && p < 3
    requires At(s0, plans0, seen0, jobs, requestors, scale, free0, p + 1, done0)
    ensures n <= |buckets[p]| && At(s, plans, seen, jobs, requestors, scale, free0, p, done0 + buckets[p][..n])
    ensures (s0.free <= 0 ==> s.free <= 0 && n == 0) && (s.free > 0 ==> n == |buckets[p]|)
  {
    var bucket := buckets[p];
    s, plans, seen, n := s0, plans0, seen0, 0;
    assert done0 + bucket[..0] == done0;
    NextPriority(s, plans, seen, jobs, requestors, scale, free0, p, done0);
    for i := 0 to |bucket|
      invariant n == i && At(s, plans, seen, jobs, requestors, scale, free0, p, done0 + bucket[..i])
      invariant s0.free <= 0 ==> s.free <= 0 && n == 0
    {
      if s.free <= 0 { break; }
      assert done0 + bucket[..i + 1] == (done0 + bucket[..i]) + [bucket[i]];
      s, plans, seen := ConsiderJob(bucket[i], jobs, requestors, scale, s, free0, plans, seen, done0 + bucket[..i]);
      n := n + 1;
    }
  }

  /** The plans for these jobs, in the order in which the first pass looks at them, as far as the nodes last. */
  ghost predicate PlannedInTurn(plans: seq<Plan>, jobs: seq<JobView>, order: seq<JobView>, free: int) {
    exists n: nat :: PlannedFirst(plans, jobs, order, n) && (free > 0 ==> n == |order|)
  }

  ghost predicate PlannedFirst(plans: seq<Plan>, jobs: seq<JobView>, order: seq<JobView>, n: nat) {
    && n <= |order| && InTurn(plans, order[..n])
    && forall v <- order[..n] :: HasWaiting(jobs, Key(v)) ==> Key(v) in Keys(plans)
  }

  /** Gives each requestor and tag its minimum, highest priority first, until the nodes run out. */
  method FirstPass(buckets: seq<seq<JobView>>, ghost jobs: seq<JobView>, requestors: map<string, seq<JobView>>,
                   scale: seq<real>, free0: nat)
    returns (s: Pass, ghost plans: seq<Plan>)
    requires Consistent(jobs, requestors) && |scale| == 3 && Bucketed(buckets, jobs)
    ensures s == PassOf(plans, free0) && PlansFollow(plans, requestors, scale, free0)
    ensures PlannedInTurn(plans, jobs, buckets[2] + buckets[1] + buckets[0], s.free)
    ensures s.free > 0 && plans == [] ==> forall v <- jobs :: Waiting(v) == []
  {
    s := Pass([], [[], [], []], [[], [], []], free0);
    plans := [];
    var seen := {};
    PassBegins(jobs, requestors, scale, free0);
    ghost var n2, n1, n0;
    s, plans, seen, n2 := PassPriority(buckets, 2, jobs, requestors, scale, s, free0, plans, seen, []);
    assert [] + buckets[2][..n2] == buckets[2][..n2];
    s, plans, seen, n1 := PassPriority(buckets, 1, jobs, requestors, scale, s, free0, plans, seen, buckets[2][..n2]);
    s, plans, seen, n0 := PassPriority(buckets, 0, jobs, requestors, scale, s, free0, plans, seen,
                                       buckets[2][..n2] + buckets[1][..n1]);
    FirstPassInTurn(s, plans, jobs, requestors, scale, free0, buckets, n2, n1, n0, seen);
  }

  lemma PassBegins(jobs: seq<JobView>, requestors: map<string, seq<JobView>>, scale: seq<real>, free0: nat)
    requires |scale| == 3
    ensures At(Pass([], [[], [], []], [[], [], []], free0), [], {}, jobs, requestors, scale, free0, 3, [])
  {
  }

  lemma NextPriority(s: Pass, plans: seq<Plan>, seen: set<(string, string)>, jobs: seq<JobView>,
                     requestors: map<string, seq<JobView>>, scale: seq<real>, free0: nat, p: nat, done: seq<JobView>)
    requires |scale| == 3 && At(s, plans, seen, jobs, requestors, scale, free0, p + 1, done)
    ensures At(s, plans, seen, jobs, requestors, scale, free0, p, done)
  {
  }

  lemma BucketsInOrder(a: seq<JobView>, b: seq<JobView>, c: seq<JobView>, i: nat, j: nat, k: nat)
    requires i <= |a| && j <= |b| && k <= |c| && (i < |a| ==> j == 0) && (i < |a| || j < |b| ==> k == 0)
    ensures a[..i] + b[..j] + c[..k] == (a + b + c)[..i + j + k]
  {
  }

  lemma FirstPassInTurn(s: Pass, plans: seq<Plan>, jobs: seq<JobView>, requestors: map<string, seq<JobView>>,
                        scale: seq<real>, free0: nat, buckets: seq<seq<JobView>>, i: nat, j: nat, k: nat,
                        seen: set<(string, string)>)
    requires Bucketed(buckets, jobs) && |scale| == 3 && forall v <- jobs :: v.priority <= 2
    requires i <= |buckets[2]| && j <= |buckets[1]| && k <= |buckets[0]|
    requires (i < |buckets[2]| ==> j == 0) && (i < |buckets[2]| || j < |buckets[1]| ==> k == 0)
    requires At(s, plans, seen, jobs, requestors, scale, free0, 0, buckets[2][..i] + buckets[1][..j] + buckets[0][..k])
    requires s.free > 0 ==> i + j + k == |buckets[2]| + |buckets[1]| + |buckets[0]|
    ensures PlannedInTurn(plans, jobs, buckets[2] + buckets[1] + buckets[0], s.free)
    ensures s.free > 0 && plans == [] ==> forall v <- jobs :: Waiting(v) == []
  {
    var order := buckets[2] + buckets[1] + buckets[0];
    BucketsInOrder(buckets[2], buckets[1], buckets[0], i, j, k);
    DoneIsPlanned(plans, jobs, order, buckets[2][..i] + buckets[1][..j] + buckets[0][..k], seen);
    if s.free > 0 && plans == [] { NoPlansNothingWaits(buckets, jobs, order); }
  }

  lemma DoneIsPlanned(plans: seq<Plan>, jobs: seq<JobView>, order: seq<JobView>, done: seq<JobView>,
                      seen: set<(string, string)>)
    requires |done| <= |order| && done == order[..|done|]
    requires InTurn(plans, done) && AreKeys(seen, done) && Covers(jobs, plans, seen)
    ensures PlannedFirst(plans, jobs, order, |done|)
  {
    forall v | v in done && HasWaiting(jobs, Key(v)) ensures Key(v) in Keys(plans) {
      var i :| 0 <= i < |done| && done[i] == v;
      assert FirstOf(done, Key(v)) <= i;
    }
  }

  lemma NoPlansNothingWaits(buckets: seq<seq<JobView>>, jobs: seq<JobView>, order: seq<JobView>)
    requires Bucketed(buckets, jobs) && forall v <- jobs :: v.priority <= 2
    requires order == buckets[2] + buckets[1] + buckets[0] && PlannedFirst([], jobs, order, |order|)
    ensures forall v <- jobs :: Waiting(v) == []
  {
    forall v | v in jobs ensures Waiting(v) == [] {
      assert v in buckets[v.priority];
      assert v.priority == 2 || v.priority == 1 || v.priority == 0;
      assert order[..|order|] == order && v in order;
      if Waiting(v) != [] { assert HasWaiting(jobs, Key(v)); }
    }
  }

  // -------------------------------------------------------------------------------------------
  // What the plans amount to.

  lemma AddListBags(r: Remaining, p: nat, list: seq<TaskRef>)
    requires p < 3
    ensures Bags(AddList(r, p, list)) == Bags(r) + multiset(list)
    ensures NoEmptyList3(r) ==> NoEmptyList3(AddList(r, p, list))
  {
    if list != [] {
      BagAppend(r[p], list);
      BagsRemove(r, p);
      BagsUpdate(r, p, r[p] + [list]);
      SwapTail(Bag(r[p]), multiset(list), Bags(Without(r, p)));
    }
  }

  lemma RegroupBags(a: multiset<TaskRef>, b: multiset<TaskRef>, c: multiset<TaskRef>,
                    x: multiset<TaskRef>, y: multiset<TaskRef>, z: multiset<TaskRef>)
    ensures (a + x) + (b + y) + (c + z) == (a + b + c) + (x + y + z)
  {
  }

  ghost function PassBag(s: Pass): multiset<TaskRef> { multiset(s.chosen) + Bags(s.required) + Bags(s.optional) }

  lemma SplitBag(unsched: seq<TaskRef>, i: nat, j: nat)
    requires i <= j <= |unsched|
    ensures multiset(unsched) == multiset(unsched[..i]) + multiset(unsched[i..j]) + multiset(unsched[j..])
  {
    assert unsched == unsched[..i] + unsched[i..j] + unsched[j..];
  }

  lemma AddPlanBag(s: Pass, priority: nat, unsched: seq<TaskRef>, minimum: nat, taken: nat)
    requires taken <= minimum <= |unsched| && priority < 3
    ensures PassBag(AddPlan(s, priority, unsched, minimum, taken)) == PassBag(s) + multiset(unsched)
  {
    var a, b, c := multiset(unsched[..taken]), multiset(unsched[taken..minimum]), multiset(unsched[minimum..]);
    var s' := AddPlan(s, priority, unsched, minimum, taken);
    AddListBags(s.required, priority, unsched[taken..minimum]);
    AddListBags(s.optional, priority, unsched[minimum..]);
    calc {
      PassBag(s');
      (multiset(s.chosen) + a) + (Bags(s.required) + b) + (Bags(s.optional) + c);
      { RegroupBags(multiset(s.chosen), Bags(s.required), Bags(s.optional), a, b, c); }
      PassBag(s) + (a + b + c);
      { SplitBag(unsched, taken, minimum); }
      PassBag(s) + multiset(unsched);
    }
  }

  lemma {:induction false} NothingLeftNothingSeen(r: Remaining)
    requires AllEmpty(r)
    ensures Bags(r) == multiset{}
  {
    assert Bag([]) == multiset{};
    assert Bags(r[2..]) == multiset{} by { assert r[2..][1..] == []; }
    assert Bags(r[1..]) == multiset{} by { assert r[1..][1..] == r[2..]; }
  }

  /** The plans lose no task they saw and never spend more nodes than there are. */
  lemma {:induction false} PlansConserve(plans: seq<Plan>, requestors: map<string, seq<JobView>>, scale: seq<real>,
                                         free0: nat)
    requires |scale| == 3 && PlansFollow(plans, requestors, scale, free0)
    ensures var s := PassOf(plans, free0);
      && PassBag(s) == multiset(Seen(plans))
      && NoEmptyList3(s.required) && NoEmptyList3(s.optional) && s.free >= 0 && s.free + |s.chosen| == free0
  {
    if plans == [] {
      NothingLeftNothingSeen([[], [], []]);
    } else {
      var before, p := plans[..|plans| - 1], plans[|plans| - 1];
      PlansConserve(before, requestors, scale, free0);
      AddPlanBag(PassOf(before, free0), p.job.priority, p.unsched, p.minimum, p.taken);
      AddListBags(PassOf(before, free0).required, p.job.priority, p.unsched[p.taken..p.minimum]);
      AddListBags(PassOf(before, free0).optional, p.job.priority, p.unsched[p.minimum..]);
    }
  }

  /** The task list that a plan leaves to a priority: the rest of the group's minimum, */
  ghost function RequiredOf(plan: Plan, p: nat): seq<seq<TaskRef>> {
    if plan.job.priority == p && plan.taken < plan.minimum <= |plan.unsched|
    then [plan.unsched[plan.taken..plan.minimum]] else []
  }

  /** and what is beyond it. */
  ghost function OptionalOf(plan: Plan, p: nat): seq<seq<TaskRef>> {
    if plan.job.priority == p && plan.minimum < |plan.unsched| then [plan.unsched[plan.minimum..]] else []
  }

  ghost function AllRequired(plans: seq<Plan>, p: nat): seq<seq<TaskRef>> {
    Flat(seq(|plans|, i requires 0 <= i < |plans| => RequiredOf(plans[i], p)))
  }

  ghost function AllOptional(plans: seq<Plan>, p: nat): seq<seq<TaskRef>> {
    Flat(seq(|plans|, i requires 0 <= i < |plans| => OptionalOf(plans[i], p)))
  }

  lemma OneMoreOptional(plans: seq<Plan>, plan: Plan, p: nat)
    ensures AllOptional(plans + [plan], p) == AllOptional(plans, p) + OptionalOf(plan, p)
  {
    var before := seq(|plans|, i requires 0 <= i < |plans| => OptionalOf(plans[i], p));
    var all := plans + [plan];
    assert seq(|all|, i requires 0 <= i < |all| => OptionalOf(all[i], p)) == before + [OptionalOf(plan, p)];
    FlatConcat(before, [OptionalOf(plan, p)]);
    FlatOne(OptionalOf(plan, p));
  }

  lemma OneMoreRequired(plans: seq<Plan>, plan: Plan, p: nat)
    ensures AllRequired(plans + [plan], p) == AllRequired(plans, p) + RequiredOf(plan, p)
  {
    var before := seq(|plans|, i requires 0 <= i < |plans| => RequiredOf(plans[i], p));
    var all := plans + [plan];
    assert seq(|all|, i requires 0 <= i < |all| => RequiredOf(all[i], p)) == before + [RequiredOf(plan, p)];
    FlatConcat(before, [RequiredOf(plan, p)]);
    FlatOne(RequiredOf(plan, p));
  }

  lemma AddPlanLists(s: Pass, plan: Plan, p: nat)
    requires plan.Sized() && p < 3
    ensures var s' := AddPlan(s, plan.job.priority, plan.unsched, plan.minimum, plan.taken);
      && s'.required[p] == s.required[p] + RequiredOf(plan, p) && s'.optional[p] == s.optional[p] + OptionalOf(plan, p)
  {
    assert s.required[p] + [] == s.required[p] && s.optional[p] + [] == s.optional[p];
  }

  /** What the first pass leaves for the second: for each priority its groups' unmet minimums and the rest of their
      tasks, a list each, in the order of the plans. */
  lemma {:induction false} PassLists(plans: seq<Plan>, requestors: map<string, seq<JobView>>, scale: seq<real>,
                                     free0: nat, p: nat)
    requires |scale| == 3 && PlansFollow(plans, requestors, scale, free0) && p < 3
    ensures PassOf(plans, free0).required[p] == AllRequired(plans, p)
    ensures PassOf(plans, free0).optional[p] == AllOptional(plans, p)
  {
    if plans != [] {
      var before, plan := plans[..|plans| - 1], plans[|plans| - 1];
      PassLists(before, requestors, scale, free0, p);
      AddPlanLists(PassOf(before, free0), plan, p);
      OneMoreRequired(before, plan, p);
      OneMoreOptional(before, plan, p);
      assert plans == before + [plan];
    }
  }

  /** A group left short of its minimum is the last to be planned for and took the last node; so tasks stay
      required only when no node is left. */
  lemma {:induction false} ShortPlanIsLast(plans: seq<Plan>, requestors: map<string, seq<JobView>>, scale: seq<real>,
                                           free0: nat)
    requires |scale| == 3 && PlansFollow(plans, requestors, scale, free0)
    ensures forall i :: 0 <= i < |plans| && plans[i].taken < plans[i].minimum ==>
              i == |plans| - 1 && PassOf(plans, free0).free == 0
    ensures PassOf(plans, free0).free > 0 ==> AllEmpty(PassOf(plans, free0).required)
  {
    if plans != [] {
      var before, p := plans[..|plans| - 1], plans[|plans| - 1];
      ShortPlanIsLast(before, requestors, scale, free0);
      assert PassOf(plans, free0).free == PassOf(before, free0).free - p.taken;
      assert forall i :: 0 <= i < |before| ==> plans[i] == before[i];
    }
  }

  lemma SameJob(jobs: seq<JobView>, u: JobView, v: JobView)
    requires WellFormedJobs(jobs) && u in jobs && v in jobs && u.id == v.id
    ensures u == v
  {
    var i :| 0 <= i < |jobs| && jobs[i] == u;
    var j :| 0 <= j < |jobs| && jobs[j] == v;
    assert i == j;
  }

  /** The tasks seen are distinct, and each waits in a job whose requestor and tag were planned for. */
  ghost predicate SeenAreWaiting(jobs: seq<JobView>, keys: set<(string, string)>, seen: seq<TaskRef>) {
    NoDup(seen) &&
    forall r <- seen :: exists v :: v in jobs && v.id == r.job && r in Waiting(v) && (v.requestor, v.tag) in keys
  }

  lemma NewGroupIsNew(jobs: seq<JobView>, requestors: map<string, seq<JobView>>, keys: set<(string, string)>,
                      seen: seq<TaskRef>, requestor: string, tag: string, k: nat)
    requires Consistent(jobs, requestors) && SeenAreWaiting(jobs, keys, seen)
    requires requestor in requestors && k <= |requestors[requestor]| && (requestor, tag) !in keys
    ensures SeenAreWaiting(jobs, keys + {(requestor, tag)}, seen + Group(requestors[requestor][..k], tag))
  {
    var mine := requestors[requestor][..k];
    var unsched := Group(mine, tag);
    GroupMembers(mine, tag);
    GroupNoDup(mine, tag);
    forall r | r in unsched
      ensures exists v :: v in jobs && v.id == r.job && r in Waiting(v) && (v.requestor, v.tag) == (requestor, tag)
    {
      var v :| v in mine && v.tag == tag && v.id == r.job && r in Waiting(v);
      assert v in requestors[requestor];
    }
    forall u, v | u in jobs && v in jobs && u.id == v.id ensures u == v { SameJob(jobs, u, v); }
    assert forall r <- seen :: r !in unsched;
    NoDupConcat(seen, unsched);
  }

  lemma {:induction false} PlansSeeWaiting(plans: seq<Plan>, jobs: seq<JobView>, requestors: map<string, seq<JobView>>,
                                           scale: seq<real>, free0: nat)
    requires |scale| == 3 && Consistent(jobs, requestors) && PlansFollow(plans, requestors, scale, free0)
    ensures SeenAreWaiting(jobs, Keys(plans), Seen(plans))
  {
    if plans != [] {
      var before, p := plans[..|plans| - 1], plans[|plans| - 1];
      PlansSeeWaiting(before, jobs, requestors, scale, free0);
      NewGroupIsNew(jobs, requestors, Keys(before), Seen(before), p.job.requestor, p.job.tag, p.k);
      assert plans == before + [p];
      assert Keys(plans) == Keys(before) + {(p.job.requestor, p.job.tag)};
    }
  }

  // -------------------------------------------------------------------------------------------
  // The whole selection.

  function OfPriority(jobs: seq<JobView>, p: nat): (r: seq<JobView>)
    ensures forall v :: v in r <==> v in jobs && v.priority == p
  {
    if jobs == [] then [] else
    var v := jobs[|jobs| - 1];
    assert jobs == jobs[..|jobs| - 1] + [v];
    OfPriority(jobs[..|jobs| - 1], p) + if v.priority == p then [v] else []
  }

  /** The jobs of a priority stay in order. */
  lemma {:induction false} OfPriorityConcat(a: seq<JobView>, b: seq<JobView>, p: nat)
    ensures OfPriority(a + b, p) == OfPriority(a, p) + OfPriority(b, p)
    ensures forall v :: OfPriority([v], p) == if v.priority == p then [v] else []
  {
    forall v ensures OfPriority([v], p) == if v.priority == p then [v] else [] {
      assert [v][..0] == [];
    }
    if b == [] {
      assert a + b == a;
    } else {
      var init, v := b[..|b| - 1], b[|b| - 1];
      assert (a + b)[..|a + b| - 1] == a + init;
      OfPriorityConcat(a, init, p);
      ConcatAssociates(OfPriority(a, p), OfPriority(init, p), if v.priority == p then [v] else []);
    }
  }

  method ByPriority(jobs: seq<JobView>) returns (buckets: seq<seq<JobView>>)
    requires forall v <- jobs :: v.priority <= 2
    ensures |buckets| == 3 && forall p :: 0 <= p < 3 ==> buckets[p] == OfPriority(jobs, p)
  {
    buckets := [[], [], []];
    for i := 0 to |jobs|
      invariant |buckets| == 3 && forall p :: 0 <= p < 3 ==> buckets[p] == OfPriority(jobs[..i], p)
    {
      assert jobs[..i + 1][..i] == jobs[..i];
      var p := jobs[i].priority;
      buckets := buckets[p := buckets[p] + [jobs[i]]];
    }
    assert jobs[..|jobs|] == jobs;
  }

  /** By its counters, a job has no unscheduled task exactly when none waits. */
  lemma OneJobTotals(v: JobView)
    requires CountersAgree(v.job)
    ensures var outstanding := |v.job.tasks| - v.job.completed;
      && 0 <= outstanding - v.job.running <= outstanding
      && (outstanding - v.job.running == 0 <==> Waiting(v) == [])
      && outstanding == Count(v.job.tasks, NotStarted) + Count(v.job.tasks, InProgress)
  {
    CountBounds(v.job.tasks);
    UnscheduledCount(v.job.tasks);
  }

  method Totals(jobs: seq<JobView>) returns (outstanding: nat, unscheduled: nat)
    requires forall v <- jobs :: CountersAgree(v.job)
    ensures unscheduled == 0 <==> forall v <- jobs :: Waiting(v) == []
    ensures unscheduled <= outstanding == Outstanding(jobs)
  {
    outstanding, unscheduled := 0, 0;
    for i := 0 to |jobs|
      invariant unscheduled <= outstanding == Outstanding(jobs[..i])
      invariant unscheduled == 0 <==> forall k :: 0 <= k < i ==> Waiting(jobs[k]) == []
    {
      assert jobs[..i + 1][..i] == jobs[..i];
      var j := jobs[i].job;
      OneJobTotals(jobs[i]);
      outstanding := outstanding + (|j.tasks| - j.completed);
      unscheduled := unscheduled + (|j.tasks| - j.completed - j.running);
    }
    assert jobs[..|jobs|] == jobs;
  }

  /** Tasks not yet completed. */
  function Outstanding(jobs: seq<JobView>): nat {
    if jobs == [] then 0 else
    var tasks := jobs[|jobs| - 1].job.tasks;
    Outstanding(jobs[..|jobs| - 1]) + Count(tasks, NotStarted) + Count(tasks, InProgress)
  }

  /** The share of a job's tasks that each priority is sure to get. */
  function Scale(outstanding: nat, numNodes: nat): (s: seq<real>)
    requires outstanding > 0
    ensures |s| == 3
  {
    var softMax := Max(outstanding, numNodes);
    seq(3, p requires 0 <= p < 3 => (numNodes as real / softMax as real) * NODE_SCALE_ADJUSTMENT[p])
  }

  /** A higher priority is sure of a larger share, and all shares together are at most the whole. */
  lemma ScaleFavoursPriority(outstanding: nat, numNodes: nat)
    requires outstanding > 0 && numNodes > 0
    ensures var s := Scale(outstanding, numNodes);
      && 0.0 < s[0] < s[1] < s[2] && s[0] + s[1] + s[2] <= 1.0
      && (outstanding <= numNodes ==> s[2] == 0.55 && s[1] == 0.3 && s[0] == 0.15)
  {
    var softMax := Max(outstanding, numNodes);
    PartOfWhole(numNodes as real, softMax as real);
  }

  /** The share is the priority's part of the cluster, over the outstanding tasks or the cluster if that is larger. */
  lemma ScaleIsShare(outstanding: nat, numNodes: nat, p: nat)
    requires outstanding > 0 && p < 3
    ensures Scale(outstanding, numNodes)[p] * Max(outstanding, numNodes) as real ==
            numNodes as real * NODE_SCALE_ADJUSTMENT[p]
  {
    Rescale(numNodes as real, Max(outstanding, numNodes) as real, NODE_SCALE_ADJUSTMENT[p]);
  }

  lemma Rescale(a: real, b: real, f: real)
    requires b > 0.0
    ensures (a / b) * f * b == a * f
  {
    calc {
      (a / b) * f * b;
      (a / b) * b * f;
      a * f;
    }
  }

  lemma PartOfWhole(a: real, b: real)
    requires 0.0 < a <= b
    ensures 0.0 < a / b <= 1.0 && (a == b ==> a / b == 1.0)
  {
    assert (a / b) * b == a;
    if a / b > 1.0 { Stretches(a / b, b); }
    if a / b <= 0.0 { Stretches(1.0 - a / b, b); }
  }

  lemma Stretches(f: real, b: real)
    requires b > 0.0 && f > 1.0
    ensures f * b > b
  {
  }

  /** Everything chosen, given the plans of the first pass. */
  ghost function Chosen(plans: seq<Plan>, free0: nat): seq<TaskRef> {
    var s := PassOf(plans, free0);
    if s.free < 0 then s.chosen else
    s.chosen + RoundsFrom(Rest([], s.required, s.optional, s.free), 0, s.free).taken
  }

  lemma MoveBags(c: multiset<TaskRef>, t: multiset<TaskRef>, r: multiset<TaskRef>, o: multiset<TaskRef>,
                 r0: multiset<TaskRef>, o0: multiset<TaskRef>)
    requires t + r + o == r0 + o0
    ensures (c + t) + (r + o) == c + r0 + o0
  {
    assert (c + t) + (r + o) == c + (t + r + o);
    assert c + r0 + o0 == c + (r0 + o0);
  }

  lemma SecondPassTakes(required: Remaining, optional: Remaining, free: nat)
    requires NoEmptyList3(required) && NoEmptyList3(optional)
    ensures var r := RoundsFrom(Rest([], required, optional, free), 0, free);
      && multiset(r.taken) + Bags(r.required) + Bags(r.optional) == Bags(required) + Bags(optional)
      && |r.taken| <= free
  {
    RoundsKeep(Rest([], required, optional, free), 0, free);
    assert multiset([]) + Bags(required) == Bags(required);
  }

  /** What is left over after both passes. */
  ghost function Leftover(plans: seq<Plan>, free0: nat): multiset<TaskRef> {
    var s := PassOf(plans, free0);
    if s.free < 0 then Bags(s.required) + Bags(s.optional) else
    var r := RoundsFrom(Rest([], s.required, s.optional, s.free), 0, s.free);
    Bags(r.required) + Bags(r.optional)
  }

  /** The second pass, given what the first left. */
  lemma SecondPassMoves(s: Pass, r: Rest)
    requires s.free >= 0 && NoEmptyList3(s.required) && NoEmptyList3(s.optional)
    requires r == RoundsFrom(Rest([], s.required, s.optional, s.free), 0, s.free)
    ensures multiset(s.chosen + r.taken) + (Bags(r.required) + Bags(r.optional)) == PassBag(s)
    ensures |r.taken| <= s.free
  {
    SecondPassTakes(s.required, s.optional, s.free);
    assert multiset(s.chosen + r.taken) == multiset(s.chosen) + multiset(r.taken);
    MoveBags(multiset(s.chosen), multiset(r.taken), Bags(r.required), Bags(r.optional), Bags(s.required),
             Bags(s.optional));
  }

  /** The tasks chosen and the tasks left over are together exactly the waiting tasks seen. */
  lemma SelectionConserves(plans: seq<Plan>, requestors: map<string, seq<JobView>>, scale: seq<real>, free0: nat)
    requires |scale| == 3 && PlansFollow(plans, requestors, scale, free0)
    ensures multiset(Chosen(plans, free0)) + Leftover(plans, free0) == multiset(Seen(plans))
    ensures |Chosen(plans, free0)| <= free0
  {
    PlansConserve(plans, requestors, scale, free0);
    var s := PassOf(plans, free0);
    SecondPassMoves(s, RoundsFrom(Rest([], s.required, s.optional, s.free), 0, s.free));
  }

  /** No task is chosen twice, every one chosen was waiting, and no more are chosen than there are nodes. */
  lemma ChosenIsSound(plans: seq<Plan>, jobs: seq<JobView>, requestors: map<string, seq<JobView>>, scale: seq<real>,
                      free0: nat)
    requires |scale| == 3 && Consistent(jobs, requestors) && PlansFollow(plans, requestors, scale, free0)
    ensures var chosen := Chosen(plans, free0);
      && |chosen| <= free0 && NoDup(chosen) && forall r <- chosen :: IsWaiting(jobs, r)
  {
    SelectionConserves(plans, requestors, scale, free0);
    PlansSeeWaiting(plans, jobs, requestors, scale, free0);
    SubBagNoDup(Chosen(plans, free0), Seen(plans));
  }

  /** The tasks that groups get towards their minimums, in the order of the plans. */
  ghost function Given(plans: seq<Plan>): seq<TaskRef>
    requires forall i :: 0 <= i < |plans| ==> plans[i].Sized()
  {
    if plans == [] then [] else
    var p := plans[|plans| - 1];
    assert p.Sized();
    Given(plans[..|plans| - 1]) + p.unsched[..p.taken]
  }

  lemma {:induction false} ChosenIsGiven(plans: seq<Plan>, requestors: map<string, seq<JobView>>, scale: seq<real>,
                                         free0: nat)
    requires |scale| == 3 && PlansFollow(plans, requestors, scale, free0)
    ensures forall i :: 0 <= i < |plans| ==> plans[i].Sized()
    ensures PassOf(plans, free0).chosen == Given(plans)
  {
    if plans != [] {
      ChosenIsGiven(plans[..|plans| - 1], requestors, scale, free0);
      assert forall i :: 0 <= i < |plans| - 1 ==> plans[i] == plans[..|plans| - 1][i];
    }
  }

  lemma {:induction false} NoNodesNoRounds(r: Rest, round: nat, basis: nat)
    requires r.free == 0
    ensures RoundsFrom(r, round, basis) == r
    decreases 4 - round
  {
    if round < 4 {
      NoNodesNoShare(Share(r.taken, if round > 1 then r.optional else r.required, r.free), 3, round, basis);
      NoNodesNoRounds(r, round + 1, basis);
    }
  }

  /** A group whose minimum is not met is the last one served: only minimums, its own and those of the groups
      before it, get nodes; nothing optional does. */
  lemma UnmetMinimumDominates(plans: seq<Plan>, requestors: map<string, seq<JobView>>, scale: seq<real>, free0: nat,
                              i: nat)
    requires |scale| == 3 && PlansFollow(plans, requestors, scale, free0)
    requires i < |plans| && plans[i].taken < plans[i].minimum
    ensures i == |plans| - 1 && forall j :: 0 <= j < |plans| ==> plans[j].Sized()
    ensures Chosen(plans, free0) == Given(plans)
  {
    var s := PassOf(plans, free0);
    ShortPlanIsLast(plans, requestors, scale, free0);
    ChosenIsGiven(plans, requestors, scale, free0);
    NoNodesNoRounds(Rest([], s.required, s.optional, s.free), 0, s.free);
    assert s.chosen + [] == s.chosen;
  }

  lemma PlannedTasksAreSomewhere(plans: seq<Plan>, requestors: map<string, seq<JobView>>, scale: seq<real>, free0: nat)
    requires |scale| == 3 && PlansFollow(plans, requestors, scale, free0) && plans != []
    ensures var s := PassOf(plans, free0); AllEmpty(s.required) && AllEmpty(s.optional) ==> s.chosen != []
  {
    var s := PassOf(plans, free0);
    if AllEmpty(s.required) && AllEmpty(s.optional) {
      PlansConserve(plans, requestors, scale, free0);
      NothingLeftNothingSeen(s.required);
      NothingLeftNothingSeen(s.optional);
      assert multiset(s.chosen) == multiset(Seen(plans));
      assert |multiset(s.chosen)| == |Seen(plans)| >= |plans[|plans| - 1].unsched|;
    }
  }

  /** If a task waits and a node is free, some task is chosen. */
  lemma SomethingIsChosen(plans: seq<Plan>, requestors: map<string, seq<JobView>>, scale: seq<real>, free0: nat)
    requires |scale| == 3 && PlansFollow(plans, requestors, scale, free0) && plans != [] && free0 > 0
    ensures Chosen(plans, free0) != []
  {
    var s := PassOf(plans, free0);
    PlansConserve(plans, requestors, scale, free0);
    PlannedTasksAreSomewhere(plans, requestors, scale, free0);
    RoundsKeep(Rest([], s.required, s.optional, s.free), 0, s.free);
  }

  /** A round over unmet minimums changes nothing if there are none, or no node is left. */
  lemma IdleRound(r: Rest, round: nat)
    requires round < 2 && (r.free == 0 || AllEmpty(r.required))
    ensures OneRound(r, round, r.free) == r
  {
    if r.free == 0 {
      NoNodesNoShare(Share(r.taken, r.required, r.free), 3, round, r.free);
    } else {
      NothingToShare(Share(r.taken, r.required, r.free), 3, round, r.free);
    }
  }

  lemma TwoIdleRounds(r: Rest)
    requires r.free == 0 || AllEmpty(r.required)
    ensures RoundsFrom(r, 0, r.free) == RoundsFrom(r, 2, r.free)
  {
    IdleRound(r, 0);
    IdleRound(r, 1);
    assert RoundsFrom(r, 0, r.free) == RoundsFrom(r, 1, r.free);
  }

  /** The rounds of the second pass over unmet minimums change nothing: while a node is left, no minimum is unmet. */
  lemma RequiredRoundsAreIdle(plans: seq<Plan>, requestors: map<string, seq<JobView>>, scale: seq<real>, free0: nat)
    requires |scale| == 3 && PlansFollow(plans, requestors, scale, free0)
    ensures var s := PassOf(plans, free0);
      s.free >= 0 && var r := Rest([], s.required, s.optional, s.free);
      RoundsFrom(r, 0, s.free) == RoundsFrom(r, 2, s.free)
  {
    var s := PassOf(plans, free0);
    PlansConserve(plans, requestors, scale, free0);
    ShortPlanIsLast(plans, requestors, scale, free0);
    TwoIdleRounds(Rest([], s.required, s.optional, s.free));
  }

  /** The tasks chosen are those of the first pass, then those that the rounds of the second one take. */
  ghost predicate SharedOut(plans: seq<Plan>, free0: nat, chosen: seq<TaskRef>) {
    var s := PassOf(plans, free0);
    s.free >= 0 && exists steps: seq<Rest> ::
      AreRounds(steps, 4, s.required, s.optional, s.free) && chosen == s.chosen + steps[4].taken
  }

  /** If the first pass leaves one node, it goes to the highest priority that has a task beyond its groups' minimums: to
      the first such task of its first group that has one. */
  lemma LastNodeIsForHighest(plans: seq<Plan>, requestors: map<string, seq<JobView>>, scale: seq<real>, free0: nat,
                             chosen: seq<TaskRef>, p: nat)
    requires |scale| == 3 && PlansFollow(plans, requestors, scale, free0) && SharedOut(plans, free0, chosen)
    requires PassOf(plans, free0).free == 1 && p < 3
    requires AllOptional(plans, p) != [] && forall q :: p < q < 3 ==> AllOptional(plans, q) == []
    ensures AllOptional(plans, p)[0] != [] && forall i :: 0 <= i < |plans| ==> plans[i].Sized()
    ensures chosen == Given(plans) + [AllOptional(plans, p)[0][0]]
  {
    var s := PassOf(plans, free0);
    PlansConserve(plans, requestors, scale, free0);
    ShortPlanIsLast(plans, requestors, scale, free0);
    ChosenIsGiven(plans, requestors, scale, free0);
    forall q | 0 <= q < 3 ensures s.optional[q] == AllOptional(plans, q) {
      PassLists(plans, requestors, scale, free0, q);
    }
    LastNode(s, chosen, p);
  }

  lemma LastNode(s: Pass, chosen: seq<TaskRef>, p: nat)
    requires s.free == 1 && AllEmpty(s.required) && IsHighest(s.optional, p) && s.optional[p][0] != []
    requires exists steps: seq<Rest> ::
      AreRounds(steps, 4, s.required, s.optional, 1) && chosen == s.chosen + steps[4].taken
    ensures chosen == s.chosen + [s.optional[p][0][0]]
  {
    var steps: seq<Rest> :| AreRounds(steps, 4, s.required, s.optional, 1) && chosen == s.chosen + steps[4].taken;
    LastNodeGoesUp(steps, s.required, s.optional, p);
  }

  /** The tasks to be given nodes now. */
  method SelectTasks(numNodes: nat, free0: nat, jobs: seq<JobView>, requestors: map<string, seq<JobView>>)
    returns (chosen: seq<TaskRef>, ghost plans: seq<Plan>)
    requires Consistent(jobs, requestors) && free0 <= numNodes
    ensures |chosen| <= free0 && NoDup(chosen) && forall r <- chosen :: IsWaiting(jobs, r)
    ensures chosen == [] <==> free0 == 0 || forall v <- jobs :: Waiting(v) == []
    ensures chosen != [] ==>
      && Outstanding(jobs) > 0 && PlansFollow(plans, requestors, Scale(Outstanding(jobs), numNodes), free0)
      && PlannedInTurn(plans, jobs, OfPriority(jobs, 2) + OfPriority(jobs, 1) + OfPriority(jobs, 0),
                       PassOf(plans, free0).free)
      && SharedOut(plans, free0, chosen) && chosen == Chosen(plans, free0)
  {
    chosen, plans := [], [];
    var outstanding, unscheduled := Totals(jobs);
    if unscheduled == 0 { return; }
    var scale := Scale(outstanding, numNodes);
    var buckets := ByPriority(jobs);
    var s;
    s, plans := FirstPass(buckets, jobs, requestors, scale, free0);
    PlansConserve(plans, requestors, scale, free0);
    ChosenIsSound(plans, jobs, requestors, scale, free0);
    var r;
    ghost var steps;
    r, steps := SecondPass(s.required, s.optional, s.free);
    chosen := s.chosen + r.taken;
    if plans != [] && free0 > 0 { SomethingIsChosen(plans, requestors, scale, free0); }
  }
}
