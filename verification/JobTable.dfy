/** The scheduler's jobs in progress, and the same jobs listed by requestor (addJobs and deleteJob). */
module JobTable {
  import Sequences

  const MAX_PRIORITY := 2

  /** What the scheduler needs of a job's definition. */
  datatype JobRef = JobRef(id: string, requestor: string, basis: string, tag: string, priority: nat)

  function OfRequestor(jobs: seq<JobRef>, r: string): seq<JobRef> {
    if jobs == [] then [] else
    var j := jobs[|jobs| - 1];
    OfRequestor(jobs[..|jobs| - 1], r) + if j.requestor == r then [j] else []
  }

  function WithoutJob(jobs: seq<JobRef>, id: string): seq<JobRef> {
    if jobs == [] then [] else
    var j := jobs[|jobs| - 1];
    WithoutJob(jobs[..|jobs| - 1], id) + if j.id == id then [] else [j]
  }

  ghost predicate UniqueJobs(jobs: seq<JobRef>) { forall i, j :: 0 <= i < j < |jobs| ==> jobs[i].id != jobs[j].id }

  /** The map lists, for each requestor with a job in progress, that requestor's jobs in order. */
  ghost predicate Indexed(jobs: seq<JobRef>, m: map<string, seq<JobRef>>) {
    forall r :: (r in m <==> OfRequestor(jobs, r) != []) && (r in m ==> m[r] == OfRequestor(jobs, r))
  }

  lemma {:induction false} OfRequestorMembers(jobs: seq<JobRef>, r: string)
    ensures forall j :: j in OfRequestor(jobs, r) <==> j in jobs && j.requestor == r
  {
    if jobs != [] {
      assert jobs == jobs[..|jobs| - 1] + [jobs[|jobs| - 1]];
      OfRequestorMembers(jobs[..|jobs| - 1], r);
    }
  }

  lemma {:induction false} OfRequestorUnique(jobs: seq<JobRef>, r: string)
    requires UniqueJobs(jobs)
    ensures UniqueJobs(OfRequestor(jobs, r))
  {
    if jobs != [] {
      var init, j := jobs[..|jobs| - 1], jobs[|jobs| - 1];
      OfRequestorUnique(init, r);
      OfRequestorMembers(init, r);
    }
  }

  lemma OfRequestorAppend(jobs: seq<JobRef>, j: JobRef, r: string)
    ensures OfRequestor(jobs + [j], r) == OfRequestor(jobs, r) + if j.requestor == r then [j] else []
  {
    assert (jobs + [j])[..|jobs|] == jobs;
  }

  lemma WithoutAppend(jobs: seq<JobRef>, j: JobRef, id: string)
    ensures WithoutJob(jobs + [j], id) == WithoutJob(jobs, id) + if j.id == id then [] else [j]
  {
    assert (jobs + [j])[..|jobs|] == jobs;
  }

  lemma {:induction false} WithoutCommutes(jobs: seq<JobRef>, id: string, r: string)
    ensures OfRequestor(WithoutJob(jobs, id), r) == WithoutJob(OfRequestor(jobs, r), id)
  {
    if jobs != [] {
      var init, j := jobs[..|jobs| - 1], jobs[|jobs| - 1];
      WithoutCommutes(init, id, r);
      OfRequestorAppend(WithoutJob(init, id), j, r);
      WithoutAppend(OfRequestor(init, r), j, id);
      assert WithoutJob(init, id) + [] == WithoutJob(init, id) && OfRequestor(init, r) + [] == OfRequestor(init, r);
    }
  }

  lemma {:induction false} WithoutAbsent(jobs: seq<JobRef>, id: string)
    requires forall i :: 0 <= i < |jobs| ==> jobs[i].id != id
    ensures WithoutJob(jobs, id) == jobs
  {
    if jobs != [] { WithoutAbsent(jobs[..|jobs| - 1], id); }
  }

  lemma OtherIds(jobs: seq<JobRef>, i: nat, k: nat)
    requires UniqueJobs(jobs) && i < |jobs| && k < |jobs| && i != k
    ensures jobs[i].id != jobs[k].id
  {
  }

  lemma WithoutLast(init: seq<JobRef>, j: JobRef)
    requires UniqueJobs(init + [j])
    ensures WithoutJob(init + [j], j.id) == init
  {
    forall k | 0 <= k < |init| ensures init[k].id != j.id { OtherIds(init + [j], k, |init|); }
    WithoutAbsent(init, j.id);
    WithoutAppend(init, j, j.id);
    assert init + [] == init;
  }

  lemma {:induction false} WithoutAt(jobs: seq<JobRef>, id: string, i: nat)
    requires UniqueJobs(jobs) && i < |jobs| && jobs[i].id == id
    ensures WithoutJob(jobs, id) == Sequences.Without(jobs, i)
  {
    var init, j := jobs[..|jobs| - 1], jobs[|jobs| - 1];
    Sequences.WithoutInit(jobs, i);
    assert jobs == init + [j];
    if i < |init| {
      OtherIds(jobs, i, |init|);
      WithoutAt(init, id, i);
      WithoutAppend(init, j, id);
    } else {
      WithoutLast(init, j);
    }
  }

  lemma {:induction false} WithoutUnique(jobs: seq<JobRef>, id: string)
    requires UniqueJobs(jobs)
    ensures UniqueJobs(WithoutJob(jobs, id)) && forall j :: j in WithoutJob(jobs, id) <==> j in jobs && j.id != id
  {
    if jobs != [] {
      var init, j := jobs[..|jobs| - 1], jobs[|jobs| - 1];
      assert jobs == init + [j];
      WithoutUnique(init, id);
    }
  }

  method DeleteFrom(jobs: seq<JobRef>, id: string) returns (r: seq<JobRef>)
    requires UniqueJobs(jobs)
    ensures r == WithoutJob(jobs, id)
  {
    var at;
    r, at := Sequences.RangeDelete(jobs, (j: JobRef) => j.id == id);
    if at < |jobs| {
      WithoutAt(jobs, id, at);
    } else {
      WithoutAbsent(jobs, id);
    }
  }

  /** A new job takes over the priority of its requestor's last job with the same tag and another basis. */
  function Adjusted(prior: seq<JobRef>, j: JobRef): nat {
    if prior == [] then j.priority else
    var p := prior[|prior| - 1];
    if p.tag == j.tag && p.basis != j.basis then p.priority else Adjusted(prior[..|prior| - 1], j)
  }

  /** A requestor's first job is held to the highest priority there is; later ones follow the earlier. */
  function PriorityFor(prior: seq<JobRef>, j: JobRef): nat {
    if prior != [] then Adjusted(prior, j) else if j.priority > MAX_PRIORITY then MAX_PRIORITY else j.priority
  }

  /** The jobs a new one replaces: same requestor and non-empty basis, another tag. */
  function Replaced(prior: seq<JobRef>, j: JobRef): seq<string> {
    if prior == [] then [] else
    var p := prior[|prior| - 1];
    Replaced(prior[..|prior| - 1], j) + if j.basis != "" && p.basis == j.basis && p.tag != j.tag then [p.id] else []
  }

  /** A new job follows this one in priority. */
  ghost predicate Follows(j: JobRef, p: JobRef) { p.requestor == j.requestor && p.tag == j.tag && p.basis != j.basis }

  /** A new job replaces this one. */
  ghost predicate Replaces(j: JobRef, p: JobRef) {
    p.requestor == j.requestor && j.basis != "" && p.basis == j.basis && p.tag != j.tag
  }

  /** The last of the jobs that a new one follows. */
  ghost predicate IsLastFollowed(jobs: seq<JobRef>, j: JobRef, i: nat) {
    i < |jobs| && Follows(j, jobs[i]) && forall k :: i < k < |jobs| ==> !Follows(j, jobs[k])
  }

  ghost predicate FollowsLast(jobs: seq<JobRef>, j: JobRef, priority: nat) {
    && (forall i: nat :: IsLastFollowed(jobs, j, i) ==> priority == jobs[i].priority)
    && ((forall p <- jobs :: !Follows(j, p)) ==> priority == j.priority)
  }

  lemma FollowsOneMore(jobs: seq<JobRef>, j: JobRef, p: JobRef, priority: nat)
    requires FollowsLast(jobs, j, priority)
    ensures FollowsLast(jobs + [p], j, if Follows(j, p) then p.priority else priority)
  {
    var all := jobs + [p];
    assert all[|jobs|] == p;
    if Follows(j, p) {
      forall i: nat | IsLastFollowed(all, j, i) ensures i == |jobs| {
        if i < |jobs| { assert false; }
      }
    } else {
      forall i: nat | IsLastFollowed(all, j, i) ensures IsLastFollowed(jobs, j, i) && all[i] == jobs[i] {
        assert forall k :: i < k < |jobs| ==> all[k] == jobs[k];
      }
      assert forall q <- jobs :: q in all;
    }
  }

  lemma AdjustedOneMore(jobs: seq<JobRef>, p: JobRef, j: JobRef)
    ensures Adjusted(OfRequestor(jobs + [p], j.requestor), j) ==
            if Follows(j, p) then p.priority else Adjusted(OfRequestor(jobs, j.requestor), j)
  {
    var mine := OfRequestor(jobs, j.requestor);
    OfRequestorAppend(jobs, p, j.requestor);
    assert (mine + [p])[..|mine|] == mine && mine + [] == mine;
  }

  lemma {:induction false} AdjustedFollowsLast(jobs: seq<JobRef>, j: JobRef)
    ensures FollowsLast(jobs, j, Adjusted(OfRequestor(jobs, j.requestor), j))
  {
    if jobs != [] {
      var init, p := jobs[..|jobs| - 1], jobs[|jobs| - 1];
      AdjustedFollowsLast(init, j);
      FollowsOneMore(init, j, p, Adjusted(OfRequestor(init, j.requestor), j));
      AdjustedOneMore(init, p, j);
      assert jobs == init + [p];
    }
  }

  /** The jobs to kill are those that a new one replaces. */
  ghost predicate KillsReplaced(jobs: seq<JobRef>, j: JobRef, kills: seq<string>) {
    forall id :: id in kills <==> exists p :: p in jobs && p.id == id && Replaces(j, p)
  }

  /** A new job has the priority of the last one it follows, and else its own; the first of its requestor is held to
      the highest there is. */
  ghost predicate FollowsEarlier(jobs: seq<JobRef>, j: JobRef, priority: nat) {
    if exists p :: p in jobs && p.requestor == j.requestor then FollowsLast(jobs, j, priority)
    else priority == if j.priority < MAX_PRIORITY then j.priority else MAX_PRIORITY
  }

  lemma {:induction false} ReplacedIffSo(jobs: seq<JobRef>, j: JobRef)
    ensures forall id :: id in Replaced(OfRequestor(jobs, j.requestor), j) <==>
      exists p :: p in jobs && p.id == id && Replaces(j, p)
  {
    if jobs != [] {
      var init, p := jobs[..|jobs| - 1], jobs[|jobs| - 1];
      ReplacedIffSo(init, j);
      var mine := OfRequestor(init, j.requestor);
      assert (mine + [p])[..|mine|] == mine && mine + [] == mine;
      assert jobs == init + [p];
    }
  }

  lemma NewJobFollows(jobs: seq<JobRef>, j: JobRef)
    ensures var prior := OfRequestor(jobs, j.requestor);
      KillsReplaced(jobs, j, Replaced(prior, j)) && FollowsEarlier(jobs, j, PriorityFor(prior, j))
  {
    ReplacedIffSo(jobs, j);
    AdjustedFollowsLast(jobs, j);
    OfRequestorMembers(jobs, j.requestor);
    var prior := OfRequestor(jobs, j.requestor);
    if prior != [] { assert prior[0] in prior; }
  }

  class JobTable {
    var jobs: seq<JobRef>
    var requestorMap: map<string, seq<JobRef>>

    ghost predicate Valid()
      reads this
    {
      UniqueJobs(jobs) && Indexed(jobs, requestorMap)
    }

    ghost predicate PrioritiesOk()
      reads this
    {
      forall j <- jobs :: j.priority <= MAX_PRIORITY
    }

    constructor ()
      ensures Valid() && jobs == []
    {
      jobs, requestorMap := [], map[];
    }

    /** Adds a job under its adjusted priority and tells which jobs to kill. */
    method Add(j: JobRef) returns (added: JobRef, kills: seq<string>)
      requires Valid() && forall k <- jobs :: k.id != j.id
      modifies this
      ensures Valid() && jobs == old(jobs) + [added]
      ensures added == j.(priority := PriorityFor(OfRequestor(old(jobs), j.requestor), j))
      ensures old(PrioritiesOk()) && j.priority <= MAX_PRIORITY ==> PrioritiesOk()
      ensures kills == Replaced(OfRequestor(old(jobs), j.requestor), j)
      ensures KillsReplaced(old(jobs), j, kills) && FollowsEarlier(old(jobs), j, added.priority)
    {
      var prior := if j.requestor in requestorMap then requestorMap[j.requestor] else [];
      assert prior == OfRequestor(jobs, j.requestor);
      added, kills := Review(prior, j);
      NewJobFollows(jobs, j);
      if PrioritiesOk() && j.priority <= MAX_PRIORITY { NewJobBounded(jobs, j); }
      Insert(added, prior);
    }

    method Insert(j: JobRef, prior: seq<JobRef>)
      requires Valid() && (forall k <- jobs :: k.id != j.id) && prior == OfRequestor(jobs, j.requestor)
      modifies this
      ensures Valid() && jobs == old(jobs) + [j]
    {
      IndexedAppend(jobs, requestorMap, j);
      jobs := jobs + [j];
      requestorMap := requestorMap[j.requestor := prior + [j]];
    }

    /** Removes a job from both lists; a requestor with no job left disappears. */
    method Delete(id: string)
      requires Valid()
      modifies this
      ensures Valid() && jobs == WithoutJob(old(jobs), id)
    {
      var requestor := RequestorOf(jobs, id);
      WithoutUnique(jobs, id);
      OfRequestorUnique(jobs, requestor);
      IndexedWithout(jobs, requestorMap, id, requestor);
      if requestor !in requestorMap { UnlistedHasNone(jobs, requestorMap, id, requestor); }
      jobs := DeleteFrom(jobs, id);
      if requestor in requestorMap {
        var mine := DeleteFrom(requestorMap[requestor], id);
        requestorMap := requestorMap[requestor := mine];
        if mine == [] { requestorMap := requestorMap - {requestor}; }
      }
    }
  }

  /** What the requestor's earlier jobs mean for a new one: its priority, and which of them it replaces. */
  method Review(prior: seq<JobRef>, j: JobRef) returns (added: JobRef, kills: seq<string>)
    ensures added == j.(priority := PriorityFor(prior, j)) && kills == Replaced(prior, j)
  {
    added, kills := j, [];
    if prior == [] {
      if j.priority > MAX_PRIORITY { added := j.(priority := MAX_PRIORITY); }
      return;
    }
    for i := 0 to |prior|
      invariant added == j.(priority := Adjusted(prior[..i], j)) && kills == Replaced(prior[..i], j)
    {
      assert prior[..i + 1][..i] == prior[..i];
      var p := prior[i];
      if j.basis != "" && p.basis == j.basis && p.tag != j.tag { kills := kills + [p.id]; }
      if p.tag == j.tag && p.basis != j.basis && p.priority != added.priority {
        added := added.(priority := p.priority);
      }
    }
    assert prior[..|prior|] == prior;
  }

  lemma {:induction false} AdjustedBounded(prior: seq<JobRef>, j: JobRef)
    requires j.priority <= MAX_PRIORITY && forall i :: 0 <= i < |prior| ==> prior[i].priority <= MAX_PRIORITY
    ensures Adjusted(prior, j) <= MAX_PRIORITY
  {
    if prior != [] { AdjustedBounded(prior[..|prior| - 1], j); }
  }

  lemma NewJobBounded(jobs: seq<JobRef>, j: JobRef)
    requires j.priority <= MAX_PRIORITY && forall k <- jobs :: k.priority <= MAX_PRIORITY
    ensures PriorityFor(OfRequestor(jobs, j.requestor), j) <= MAX_PRIORITY
  {
    OfRequestorMembers(jobs, j.requestor);
    AdjustedBounded(OfRequestor(jobs, j.requestor), j);
  }

  /** The requestor of the job with this id, or the empty name if there is none. */
  method RequestorOf(jobs: seq<JobRef>, id: string) returns (requestor: string)
    requires UniqueJobs(jobs)
    ensures forall i :: 0 <= i < |jobs| && jobs[i].id == id ==> requestor == jobs[i].requestor
  {
    requestor := "";
    for i := 0 to |jobs|
      invariant forall k :: 0 <= k < i && jobs[k].id == id ==> requestor == jobs[k].requestor
    {
      if jobs[i].id == id { requestor := jobs[i].requestor; }
    }
  }

  lemma IndexedAppend(jobs: seq<JobRef>, m: map<string, seq<JobRef>>, j: JobRef)
    requires Indexed(jobs, m)
    ensures Indexed(jobs + [j], m[j.requestor := OfRequestor(jobs, j.requestor) + [j]])
  {
    forall r ensures OfRequestor(jobs + [j], r) == OfRequestor(jobs, r) + if j.requestor == r then [j] else [] {
      OfRequestorAppend(jobs, j, r);
    }
  }

  lemma IndexedWithout(jobs: seq<JobRef>, m: map<string, seq<JobRef>>, id: string, requestor: string)
    requires Indexed(jobs, m) && forall i :: 0 <= i < |jobs| && jobs[i].id == id ==> requestor == jobs[i].requestor
    ensures var mine := WithoutJob(OfRequestor(jobs, requestor), id);
      Indexed(WithoutJob(jobs, id), if mine == [] then m - {requestor} else m[requestor := mine])
  {
    var mine := WithoutJob(OfRequestor(jobs, requestor), id);
    var m' := if mine == [] then m - {requestor} else m[requestor := mine];
    var jobs' := WithoutJob(jobs, id);
    forall r ensures (r in m' <==> OfRequestor(jobs', r) != []) && (r in m' ==> m'[r] == OfRequestor(jobs', r)) {
      OneListShrinks(jobs, id, requestor, r);
    }
  }

  lemma UnlistedHasNone(jobs: seq<JobRef>, m: map<string, seq<JobRef>>, id: string, requestor: string)
    requires Indexed(jobs, m) && requestor !in m
    ensures WithoutJob(OfRequestor(jobs, requestor), id) == [] && m - {requestor} == m
  {
  }

  lemma OneListShrinks(jobs: seq<JobRef>, id: string, requestor: string, r: string)
    requires forall i :: 0 <= i < |jobs| && jobs[i].id == id ==> requestor == jobs[i].requestor
    ensures OfRequestor(WithoutJob(jobs, id), r) ==
            if r == requestor then WithoutJob(OfRequestor(jobs, r), id) else OfRequestor(jobs, r)
  {
    WithoutCommutes(jobs, id, r);
    if r != requestor {
      OfRequestorMembers(jobs, r);
      WithoutAbsent(OfRequestor(jobs, r), id);
    }
  }
}
