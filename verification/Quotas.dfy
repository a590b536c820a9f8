/** The second pass of getTaskAssignments: the nodes left over are shared out among the task lists that
    remain, by priority. */
module Quotas {
  import opened Sequences
  import opened TaskGroups

  // -------------------------------------------------------------------------------------------
  // Lists of task lists, as bags.

  ghost function Bag(lists: seq<seq<TaskRef>>): multiset<TaskRef> {
    if lists == [] then multiset{} else multiset(lists[0]) + Bag(lists[1..])
  }

  /** One list of task lists for each priority. */
  type Remaining = r: seq<seq<seq<TaskRef>>> | |r| == 3 witness [[], [], []]

  ghost function Bags(r: seq<seq<seq<TaskRef>>>): multiset<TaskRef> {
    if r == [] then multiset{} else Bag(r[0]) + Bags(r[1..])
  }

  lemma {:induction false} BagAppend(a: seq<seq<TaskRef>>, x: seq<TaskRef>)
    ensures Bag(a + [x]) == Bag(a) + multiset(x)
  {
    if a == [] {
      assert ([x])[1..] == [];
    } else {
      assert (a + [x])[1..] == a[1..] + [x];
      BagAppend(a[1..], x);
    }
  }

  lemma SwapBags(a: multiset<TaskRef>, b: multiset<TaskRef>, c: multiset<TaskRef>)
    ensures a + (b + c) == b + (a + c)
  {
  }

  ghost predicate NoEmptyList(lists: seq<seq<TaskRef>>) { forall i :: 0 <= i < |lists| ==> lists[i] != [] }

  ghost predicate NoEmptyList3(r: Remaining) { forall p :: 0 <= p < 3 ==> NoEmptyList(r[p]) }

  ghost predicate AllEmpty(r: Remaining) { forall p :: 0 <= p < 3 ==> r[p] == [] }

  function Quota(basis: nat, share: real, lists: nat): (n: int)
    ensures basis > 0 && share > 0.0 && lists > 0 ==> n > 0
    ensures lists > 0 ==> n as real >= basis as real * share / lists as real > n as real - 1.0
  {
    if lists == 0 then 0 else Ceil(basis as real * share / lists as real)
  }

  /** The share of a priority in each of the four rounds of the second pass. */
  function Fraction(round: nat, p: nat): (x: real)
    requires p < 3
    ensures x > 0.0
  {
    if round % 2 == 0 then NODE_SCALE_ADJUSTMENT[p] else 1.0
  }

  lemma {:induction false} BagsRemove(r: seq<seq<seq<TaskRef>>>, p: nat)
    requires p < |r|
    ensures Bags(r) == Bag(r[p]) + Bags(Without(r, p))
  {
    if p == 0 {
      assert Without(r, 0) == r[1..];
    } else {
      BagsRemove(r[1..], p - 1);
      assert Without(r, p)[0] == r[0] && Without(r, p)[1..] == Without(r[1..], p - 1);
      SwapBags(Bag(r[0]), Bag(r[p]), Bags(Without(r[1..], p - 1)));
    }
  }

  lemma BagsUpdate(r: seq<seq<seq<TaskRef>>>, p: nat, lists: seq<seq<TaskRef>>)
    requires p < |r|
    ensures Bags(r[p := lists]) == Bag(lists) + Bags(Without(r, p))
  {
    BagsRemove(r[p := lists], p);
    assert Without(r[p := lists], p) == Without(r, p);
  }

  lemma RoundKeepsBags(taken: seq<TaskRef>, more: seq<TaskRef>, r: seq<seq<seq<TaskRef>>>, p: nat,
                       lists: seq<seq<TaskRef>>)
    requires p < |r| && multiset(more) + Bag(lists) == Bag(r[p])
    ensures multiset(taken + more) + Bags(r[p := lists]) == multiset(taken) + Bags(r)
  {
    BagsRemove(r, p);
    BagsUpdate(r, p, lists);
  }

  // -------------------------------------------------------------------------------------------
  // One priority.

  datatype Taken = Taken(tasks: seq<TaskRef>, lists: seq<seq<TaskRef>>, free: nat)

  function Allowed(list: seq<TaskRef>, quota: int, free: nat): (n: nat)
    ensures n <= |list| && n <= free
  {
    Max(0, Min(free, Min(quota, |list|)))
  }

  /** The first `n` tasks of a list are taken, and the list is dropped if they were all it had. */
  function TakeHead(list: seq<TaskRef>, n: nat, rest: Taken): Taken
    requires n <= |list|
  {
    Taken(list[..n] + rest.tasks, (if 0 < n == |list| then [] else [list[n..]]) + rest.lists, rest.free)
  }

  /** Up to `quota` tasks from the front of each list in turn, while nodes last. */
  function TakeEach(lists: seq<seq<TaskRef>>, quota: int, free: nat): Taken {
    if lists == [] then Taken([], [], free) else
    var n := Allowed(lists[0], quota, free);
    TakeHead(lists[0], n, TakeEach(lists[1..], quota, free - n))
  }

  ghost function TakenBag(t: Taken): multiset<TaskRef> { multiset(t.tasks) + Bag(t.lists) }

  lemma {:induction false} TakeEachKeepsTasks(lists: seq<seq<TaskRef>>, quota: int, free: nat)
    ensures TakenBag(TakeEach(lists, quota, free)) == Bag(lists)
  {
    if lists != [] {
      var n := Allowed(lists[0], quota, free);
      TakeEachKeepsTasks(lists[1..], quota, free - n);
      TakeHeadKeepsBag(lists[0], n, TakeEach(lists[1..], quota, free - n));
    }
  }

  /** While there are nodes, quota and lists, some task is taken. */
  lemma {:induction false} TakeEachTakes(lists: seq<seq<TaskRef>>, quota: int, free: nat)
    requires NoEmptyList(lists)
    ensures var t := TakeEach(lists, quota, free);
      && t.free == free - |t.tasks| && NoEmptyList(t.lists)
      && (free > 0 && quota > 0 && lists != [] ==> t.tasks != [])
      && (t.tasks == [] ==> t.lists == lists)
  {
    if lists != [] {
      var n := Allowed(lists[0], quota, free);
      TakeEachTakes(lists[1..], quota, free - n);
      TakeHeadTakes(lists, n, TakeEach(lists[1..], quota, free - n), free);
    }
  }

  lemma TakeHeadTakes(lists: seq<seq<TaskRef>>, n: nat, rest: Taken, free: nat)
    requires NoEmptyList(lists) && lists != [] && n <= |lists[0]| && n <= free
    requires rest.free == free - n - |rest.tasks| && NoEmptyList(rest.lists)
    requires rest.tasks == [] ==> rest.lists == lists[1..]
    ensures var t := TakeHead(lists[0], n, rest);
      && t.free == free - |t.tasks| && NoEmptyList(t.lists) && (n > 0 ==> t.tasks != [])
      && (t.tasks == [] ==> t.lists == lists)
  {
    if n == 0 && rest.tasks == [] { assert [lists[0][0..]] + lists[1..] == lists; }
  }

  lemma TakeHeadKeepsBag(list: seq<TaskRef>, n: nat, rest: Taken)
    requires n <= |list|
    ensures TakenBag(TakeHead(list, n, rest)) == multiset(list) + TakenBag(rest)
  {
    assert list == list[..n] + list[n..];
    assert ([list[n..]] + rest.lists)[1..] == rest.lists;
    assert [] + rest.lists == rest.lists;
    RegroupTaken(multiset(list[..n]), multiset(list[n..]), multiset(rest.tasks), Bag(rest.lists));
  }

  lemma RegroupTaken(a: multiset<TaskRef>, b: multiset<TaskRef>, c: multiset<TaskRef>, d: multiset<TaskRef>)
    ensures (a + c) + (b + d) == (a + b) + (c + d)
  {
  }

  // What was taken from each list.

  ghost predicate Fits(lists: seq<seq<TaskRef>>, ns: seq<nat>) {
    |ns| == |lists| && forall i :: 0 <= i < |ns| ==> ns[i] <= |lists[i]|
  }

  ghost function Fronts(lists: seq<seq<TaskRef>>, ns: seq<nat>): seq<seq<TaskRef>>
    requires Fits(lists, ns)
  {
    seq(|lists|, i requires 0 <= i < |lists| && Fits(lists, ns) => lists[i][..ns[i]])
  }

  /** What the lists keep; one that gave all it had is dropped. */
  ghost function Backs(lists: seq<seq<TaskRef>>, ns: seq<nat>): seq<seq<seq<TaskRef>>>
    requires Fits(lists, ns)
  {
    seq(|lists|, i requires 0 <= i < |lists| && Fits(lists, ns) =>
      if 0 < ns[i] == |lists[i]| then [] else [lists[i][ns[i]..]])
  }

  /** The first `ns[i]` tasks of list `i` were taken, in the order of the lists, each time as many as the quota, the
      list and the nodes left by the lists before it allow. */
  ghost predicate TookFronts(lists: seq<seq<TaskRef>>, quota: int, free: int, ns: seq<nat>, tasks: seq<TaskRef>,
                             left: seq<seq<TaskRef>>) {
    && Fits(lists, ns) && tasks == Flat(Fronts(lists, ns)) && left == Flat(Backs(lists, ns))
    && AsAllowed(lists, quota, free, ns)
  }

  ghost predicate AsAllowed(lists: seq<seq<TaskRef>>, quota: int, free: int, ns: seq<nat>) {
    |ns| == |lists| &&
    forall i :: 0 <= i < |ns| ==> ns[i] == Max(0, Min(free - Sum(ns[..i]), Min(quota, |lists[i]|)))
  }

  /** How many tasks the lists would give, were there nodes enough. */
  ghost function Wanted(lists: seq<seq<TaskRef>>, quota: int): nat {
    if lists == [] then 0 else Max(0, Min(quota, |lists[0]|)) + Wanted(lists[1..], quota)
  }

  /** What a priority's lists gave: the quota from the front of each, while nodes last. */
  ghost predicate Took(lists: seq<seq<TaskRef>>, quota: int, free: int, tasks: seq<TaskRef>, left: seq<seq<TaskRef>>) {
    && (exists ns :: TookFronts(lists, quota, free, ns, tasks, left))
    && |tasks| == Min(free, Wanted(lists, quota))
  }

  lemma OneMoreList(lists: seq<seq<TaskRef>>, n: nat, ns: seq<nat>)
    requires lists != [] && n <= |lists[0]| && Fits(lists[1..], ns)
    ensures Fits(lists, [n] + ns)
    ensures Fronts(lists, [n] + ns) == [lists[0][..n]] + Fronts(lists[1..], ns)
    ensures Backs(lists, [n] + ns) ==
            [if 0 < n == |lists[0]| then [] else [lists[0][n..]]] + Backs(lists[1..], ns)
  {
  }

  lemma FirstOfSums(n: nat, ns: seq<nat>, i: nat)
    requires 0 < i <= |ns| + 1
    ensures Sum(([n] + ns)[..i]) == n + Sum(ns[..i - 1])
  {
    assert ([n] + ns)[..i] == [n] + ns[..i - 1];
    SumCons(n, ns[..i - 1]);
  }

  lemma TookOneMore(lists: seq<seq<TaskRef>>, quota: int, free: nat, n: nat, ns: seq<nat>, rest: Taken)
    requires lists != [] && n == Allowed(lists[0], quota, free)
    requires TookFronts(lists[1..], quota, free - n, ns, rest.tasks, rest.lists)
    ensures var t := TakeHead(lists[0], n, rest); TookFronts(lists, quota, free, [n] + ns, t.tasks, t.lists)
  {
    OneMoreList(lists, n, ns);
    FlatCons(lists[0][..n], Fronts(lists[1..], ns));
    FlatCons(if 0 < n == |lists[0]| then [] else [lists[0][n..]], Backs(lists[1..], ns));
    OneMoreAllowed(lists, quota, free, n, ns);
  }

  lemma OneMoreAllowed(lists: seq<seq<TaskRef>>, quota: int, free: nat, n: nat, ns: seq<nat>)
    requires lists != [] && n == Allowed(lists[0], quota, free) && AsAllowed(lists[1..], quota, free - n, ns)
    ensures AsAllowed(lists, quota, free, [n] + ns)
  {
    forall i | 0 <= i < |ns| + 1
      ensures ([n] + ns)[i] == Max(0, Min(free - Sum(([n] + ns)[..i]), Min(quota, |lists[i]|)))
    {
      if i > 0 {
        FirstOfSums(n, ns, i);
        assert ns[i - 1] == Max(0, Min(free - n - Sum(ns[..i - 1]), Min(quota, |lists[1..][i - 1]|)));
      }
    }
  }

  lemma {:induction false} TakeEachTakesFronts(lists: seq<seq<TaskRef>>, quota: int, free: nat) returns (ns: seq<nat>)
    ensures var t := TakeEach(lists, quota, free); TookFronts(lists, quota, free, ns, t.tasks, t.lists)
  {
    if lists == [] {
      ns := [];
      assert Fronts(lists, ns) == [] && Backs(lists, ns) == [];
    } else {
      var n := Allowed(lists[0], quota, free);
      ns := TakeEachTakesFronts(lists[1..], quota, free - n);
      TookOneMore(lists, quota, free, n, ns, TakeEach(lists[1..], quota, free - n));
      ns := [n] + ns;
    }
  }

  lemma {:induction false} TakeEachTakesWanted(lists: seq<seq<TaskRef>>, quota: int, free: nat)
    ensures var t := TakeEach(lists, quota, free); |t.tasks| == Min(free, Wanted(lists, quota)) == free - t.free
  {
    if lists != [] {
      TakeEachTakesWanted(lists[1..], quota, free - Allowed(lists[0], quota, free));
    }
  }

  lemma TakeEachTook(lists: seq<seq<TaskRef>>, quota: int, free: nat)
    ensures var t := TakeEach(lists, quota, free); Took(lists, quota, free, t.tasks, t.lists)
    ensures var t := TakeEach(lists, quota, free); t.free == free - |t.tasks|
  {
    var ns := TakeEachTakesFronts(lists, quota, free);
    TakeEachTakesWanted(lists, quota, free);
  }

  /** What the loop has taken, the lists it has passed, and what it will do with the rest. */
  ghost function Outlook(taken: seq<TaskRef>, lists: seq<seq<TaskRef>>, i: nat, quota: int, free: nat): Taken
    requires i <= |lists|
  {
    var rest := TakeEach(lists[i..], quota, free);
    Taken(taken + rest.tasks, lists[..i] + rest.lists, rest.free)
  }

  lemma OutlookAfterTaking(taken: seq<TaskRef>, lists: seq<seq<TaskRef>>, i: nat, quota: int, free: nat, n: nat)
    requires i < |lists| && n == Min(free, Min(quota, |lists[i]|)) > 0
    ensures Outlook(taken, lists, i, quota, free) ==
            if n < |lists[i]| then Outlook(taken + lists[i][..n], lists[i := lists[i][n..]], i + 1, quota, free - n)
            else Outlook(taken + lists[i][..n], Without(lists, i), i, quota, free - n)
  {
    var list := lists[i];
    assert lists[i..][1..] == lists[i + 1..];
    var rest := TakeEach(lists[i + 1..], quota, free - n);
    assert taken + (list[..n] + rest.tasks) == (taken + list[..n]) + rest.tasks;
    if n < |list| {
      var lists' := lists[i := list[n..]];
      assert lists'[i + 1..] == lists[i + 1..];
      assert lists[..i] + ([list[n..]] + rest.lists) == lists'[..i + 1] + rest.lists;
    } else {
      assert Without(lists, i)[i..] == lists[i + 1..] && Without(lists, i)[..i] == lists[..i];
      assert [] + rest.lists == rest.lists;
    }
  }

  lemma OutlookAfterSkipping(taken: seq<TaskRef>, lists: seq<seq<TaskRef>>, i: nat, quota: int, free: nat)
    requires i < |lists| && Min(free, Min(quota, |lists[i]|)) <= 0
    ensures Outlook(taken, lists, i, quota, free) == Outlook(taken, lists, i + 1, quota, free)
  {
    assert lists[i..][1..] == lists[i + 1..];
    var rest := TakeEach(lists[i + 1..], quota, free);
    assert lists[i][0..] == lists[i] && [] + rest.tasks == rest.tasks;
    assert lists[..i] + ([lists[i]] + rest.lists) == lists[..i + 1] + rest.lists;
  }

  /** The loop over a priority's task lists: a list is shortened in place, or removed once it is used up, in
      which case the index stays where it is. */
  method TakeQuota(lists0: seq<seq<TaskRef>>, quota: int, free0: nat)
    returns (taken: seq<TaskRef>, lists: seq<seq<TaskRef>>, free: nat)
    ensures Took(lists0, quota, free0, taken, lists) && free == free0 - |taken|
    ensures Taken(taken, lists, free) == TakeEach(lists0, quota, free0)
  {
    taken, lists, free := [], lists0, free0;
    var i := 0;
    assert Outlook([], lists0, 0, quota, free0) == TakeEach(lists0, quota, free0) by {
      assert lists0[0..] == lists0;
    }
    while i < |lists|
      invariant 0 <= i <= |lists|
      invariant Outlook(taken, lists, i, quota, free) == TakeEach(lists0, quota, free0)
      decreases |lists| - i
    {
      var list := lists[i];
      var n := Min(free, Min(quota, |list|));
      if n > 0 {
        OutlookAfterTaking(taken, lists, i, quota, free, n);
        free := free - n;
        taken := taken + list[..n];
        if |list| - n > 0 {
          lists := lists[i := list[n..]];
          i := i + 1;
        } else {
          lists := Without(lists, i);
        }
      } else {
        OutlookAfterSkipping(taken, lists, i, quota, free);
        i := i + 1;
      }
    }
    OutlookAtEnd(taken, lists, quota, free);
    TakeEachTook(lists0, quota, free0);
  }

  lemma OutlookAtEnd(taken: seq<TaskRef>, lists: seq<seq<TaskRef>>, quota: int, free: nat)
    ensures Outlook(taken, lists, |lists|, quota, free) == Taken(taken, lists, free)
  {
    assert lists[|lists|..] == [] && lists[..|lists|] == lists;
    assert taken + [] == taken && lists + [] == lists;
  }

  // -------------------------------------------------------------------------------------------
  // All priorities, four times.

  /** Tasks taken so far, task lists left, and nodes left. */
  datatype Share = Share(taken: seq<TaskRef>, left: Remaining, free: nat)

  /** A priority's share of the free nodes, split evenly over its task lists. */
  function SharePriority(s: Share, p: nat, round: nat, basis: nat): Share
    requires p < 3
  {
    var t := TakeEach(s.left[p], Quota(basis, Fraction(round, p), |s.left[p]|), s.free);
    Share(s.taken + t.tasks, s.left[p := t.lists], t.free)
  }

  /** The priorities below `p`, highest first. */
  function ShareBelow(s: Share, p: nat, round: nat, basis: nat): Share
    requires p <= 3
    decreases p
  {
    if p == 0 then s else ShareBelow(SharePriority(s, p - 1, round, basis), p - 1, round, basis)
  }

  ghost predicate ShareKeeps(s: Share, s': Share) {
    && s.taken <= s'.taken && s.free + |s.taken| == s'.free + |s'.taken|
    && NoEmptyList3(s'.left) && multiset(s'.taken) + Bags(s'.left) == multiset(s.taken) + Bags(s.left)
    && (s'.taken == s.taken ==> s'.left == s.left)
  }

  lemma SharePriorityKeeps(s: Share, p: nat, round: nat, basis: nat)
    requires p < 3 && NoEmptyList3(s.left) && basis >= s.free
    ensures ShareKeeps(s, SharePriority(s, p, round, basis))
    ensures s.free > 0 && s.left[p] != [] ==> SharePriority(s, p, round, basis).taken != s.taken
  {
    var quota := Quota(basis, Fraction(round, p), |s.left[p]|);
    var t := TakeEach(s.left[p], quota, s.free);
    TakeEachTakes(s.left[p], quota, s.free);
    TakeEachKeepsTasks(s.left[p], quota, s.free);
    RoundKeepsBags(s.taken, t.tasks, s.left, p, t.lists);
    assert s.taken + t.tasks == s.taken ==> t.tasks == [];
  }

  /** A round loses no task, */
  lemma {:induction false} ShareBelowKeeps(s: Share, p: nat, round: nat, basis: nat)
    requires p <= 3 && NoEmptyList3(s.left) && basis >= s.free
    ensures ShareKeeps(s, ShareBelow(s, p, round, basis))
    decreases p
  {
    if p > 0 {
      var s1 := SharePriority(s, p - 1, round, basis);
      SharePriorityKeeps(s, p - 1, round, basis);
      ShareBelowKeeps(s1, p - 1, round, basis);
      ShareKeepsTransitive(s, s1, ShareBelow(s1, p - 1, round, basis));
    }
  }

  /** and leaves all nodes unused only if there is no task to use one. */
  lemma {:induction false} ShareBelowTakes(s: Share, p: nat, round: nat, basis: nat, q: nat)
    requires q < p <= 3 && NoEmptyList3(s.left) && basis >= s.free > 0 && s.left[q] != []
    ensures ShareBelow(s, p, round, basis).taken != s.taken
    decreases p
  {
    var s1 := SharePriority(s, p - 1, round, basis);
    SharePriorityKeeps(s, p - 1, round, basis);
    ShareBelowKeeps(s1, p - 1, round, basis);
    ShareKeepsTransitive(s, s1, ShareBelow(s1, p - 1, round, basis));
    if q < p - 1 && s1 == s { ShareBelowTakes(s, p - 1, round, basis, q); }
  }

  lemma RoundTakesSome(s: Share, round: nat, basis: nat)
    requires NoEmptyList3(s.left) && basis >= s.free > 0 && !AllEmpty(s.left)
    ensures ShareBelow(s, 3, round, basis).taken != s.taken
  {
    var q :| 0 <= q < 3 && s.left[q] != [];
    ShareBelowTakes(s, 3, round, basis, q);
  }

  lemma ShareKeepsTransitive(a: Share, b: Share, c: Share)
    requires ShareKeeps(a, b) && ShareKeeps(b, c)
    ensures ShareKeeps(a, c) && (c.taken == a.taken ==> b == a == c)
  {
  }

  lemma {:induction false} NoNodesTakeNone(lists: seq<seq<TaskRef>>, quota: int)
    ensures TakeEach(lists, quota, 0) == Taken([], lists, 0)
  {
    if lists != [] {
      NoNodesTakeNone(lists[1..], quota);
      assert Allowed(lists[0], quota, 0) == 0;
      assert TakeHead(lists[0], 0, Taken([], lists[1..], 0)) == Taken([], lists, 0) by {
        assert lists[0][..0] + [] == [] && lists[0][0..] == lists[0] && [lists[0]] + lists[1..] == lists;
      }
    }
  }

  /** Leaving the loops once no node is free changes nothing. */
  lemma {:induction false} NoNodesNoShare(s: Share, p: nat, round: nat, basis: nat)
    requires p <= 3 && s.free == 0
    ensures ShareBelow(s, p, round, basis) == s
  {
    if p > 0 {
      NoNodesTakeNone(s.left[p - 1], Quota(basis, Fraction(round, p - 1), |s.left[p - 1]|));
      assert s.taken + [] == s.taken && s.left[p - 1 := s.left[p - 1]] == s.left;
      NoNodesNoShare(s, p - 1, round, basis);
    }
  }

  /** What was taken for priority `p` in a round, when `free` nodes were left for it: by the quota that is the
      priority's share in the round, split evenly over its lists. */
  ghost predicate PartTook(s: Share, s': Share, part: seq<TaskRef>, free: int, p: nat, round: nat, basis: nat)
    requires p < 3
  {
    var share := if round % 2 == 0 then NODE_SCALE_ADJUSTMENT[p] else 1.0;
    Took(s.left[p], Quota(basis, share, |s.left[p]|), free, part, s'.left[p])
  }

  /** What one round came to: each priority had the nodes that the priorities above it left. */
  ghost predicate RoundTook(s: Share, s': Share, parts: seq<seq<TaskRef>>, round: nat, basis: nat) {
    && |parts| == 3 && s'.taken == s.taken + parts[2] + parts[1] + parts[0]
    && s'.free == s.free - |parts[2]| - |parts[1]| - |parts[0]|
    && PartTook(s, s', parts[2], s.free, 2, round, basis)
    && PartTook(s, s', parts[1], s.free - |parts[2]|, 1, round, basis)
    && PartTook(s, s', parts[0], s.free - |parts[2]| - |parts[1]|, 0, round, basis)
  }

  /** Only priority `p` was served. */
  ghost predicate Served(s: Share, s': Share, part: seq<TaskRef>, p: nat, round: nat, basis: nat)
    requires p < 3
  {
    && s'.taken == s.taken + part && s'.free == s.free - |part| && s'.left == s.left[p := s'.left[p]]
    && PartTook(s, s', part, s.free, p, round, basis)
  }

  lemma SharePriorityServes(s: Share, p: nat, round: nat, basis: nat) returns (part: seq<TaskRef>)
    requires p < 3
    ensures Served(s, SharePriority(s, p, round, basis), part, p, round, basis)
  {
    var quota := Quota(basis, Fraction(round, p), |s.left[p]|);
    TakeEachTook(s.left[p], quota, s.free);
    part := TakeEach(s.left[p], quota, s.free).tasks;
  }

  lemma SamePart(s: Share, s': Share, t: Share, t': Share, part: seq<TaskRef>, free: int, p: nat, round: nat,
                 basis: nat)
    requires p < 3 && PartTook(s, s', part, free, p, round, basis) && t.left[p] == s.left[p] && t'.left[p] == s'.left[p]
    ensures PartTook(t, t', part, free, p, round, basis)
  {
  }

  lemma RoundServes(s: Share, s2: Share, s1: Share, s0: Share, parts: seq<seq<TaskRef>>, round: nat, basis: nat)
    requires |parts| == 3 && Served(s, s2, parts[2], 2, round, basis)
    requires Served(s2, s1, parts[1], 1, round, basis) && Served(s1, s0, parts[0], 0, round, basis)
    ensures RoundTook(s, s0, parts, round, basis)
  {
    SamePart(s, s2, s, s0, parts[2], s.free, 2, round, basis);
    SamePart(s2, s1, s, s0, parts[1], s2.free, 1, round, basis);
    SamePart(s1, s0, s, s0, parts[0], s1.free, 0, round, basis);
  }

  lemma ShareBelowTook(s: Share, round: nat, basis: nat) returns (parts: seq<seq<TaskRef>>)
    ensures RoundTook(s, ShareBelow(s, 3, round, basis), parts, round, basis)
  {
    var s2 := SharePriority(s, 2, round, basis);
    var s1 := SharePriority(s2, 1, round, basis);
    var s0 := SharePriority(s1, 0, round, basis);
    var part2 := SharePriorityServes(s, 2, round, basis);
    var part1 := SharePriorityServes(s2, 1, round, basis);
    var part0 := SharePriorityServes(s1, 0, round, basis);
    parts := [part0, part1, part2];
    RoundServes(s, s2, s1, s0, parts, round, basis);
    ThreePriorities(s, round, basis);
  }

  lemma ThreePriorities(s: Share, round: nat, basis: nat)
    ensures ShareBelow(s, 3, round, basis) ==
            SharePriority(SharePriority(SharePriority(s, 2, round, basis), 1, round, basis), 0, round, basis)
  {
    var s2 := SharePriority(s, 2, round, basis);
    var s1 := SharePriority(s2, 1, round, basis);
    assert ShareBelow(s, 3, round, basis) == ShareBelow(s2, 2, round, basis) == ShareBelow(s1, 1, round, basis);
  }

  /** Every priority above one that was given a node was given all that its quota lets it have. */
  ghost predicate HigherFirst(s: Share, parts: seq<seq<TaskRef>>, round: nat, basis: nat) {
    |parts| == 3 && forall p, q :: 0 <= q < p < 3 && parts[q] != [] ==>
      var share := if round == 0 || round == 2 then NODE_SCALE_ADJUSTMENT[p] else 1.0;
      |parts[p]| == Wanted(s.left[p], Quota(basis, share, |s.left[p]|))
  }

  /** What a priority would be given in a round, were there nodes enough. */
  ghost function Due(s: Share, p: nat, round: nat, basis: nat): nat
    requires p < 3
  {
    Wanted(s.left[p], Quota(basis, if round % 2 == 0 then NODE_SCALE_ADJUSTMENT[p] else 1.0, |s.left[p]|))
  }

  ghost predicate Amounts(s: Share, parts: seq<seq<TaskRef>>, round: nat, basis: nat) {
    && |parts| == 3 && |parts[2]| == Min(s.free, Due(s, 2, round, basis))
    && |parts[1]| == Min(s.free - |parts[2]|, Due(s, 1, round, basis))
    && |parts[0]| == Min(s.free - |parts[2]| - |parts[1]|, Due(s, 0, round, basis))
  }

  lemma PartAmount(s: Share, s': Share, part: seq<TaskRef>, free: int, p: nat, round: nat, basis: nat)
    requires p < 3 && PartTook(s, s', part, free, p, round, basis)
    ensures |part| == Min(free, Due(s, p, round, basis))
  {
  }

  lemma RoundAmounts(s: Share, s': Share, parts: seq<seq<TaskRef>>, round: nat, basis: nat)
    requires RoundTook(s, s', parts, round, basis)
    ensures Amounts(s, parts, round, basis)
  {
    PartAmount(s, s', parts[2], s.free, 2, round, basis);
    PartAmount(s, s', parts[1], s.free - |parts[2]|, 1, round, basis);
    PartAmount(s, s', parts[0], s.free - |parts[2]| - |parts[1]|, 0, round, basis);
  }

  lemma AmountsHigherFirst(s: Share, parts: seq<seq<TaskRef>>, round: nat, basis: nat)
    requires Amounts(s, parts, round, basis) && round < 4
    ensures HigherFirst(s, parts, round, basis)
  {
    forall p, q | 0 <= q < p < 3 && parts[q] != [] ensures |parts[p]| == Due(s, p, round, basis) {}
  }

  lemma PartsOfRound(s: Share, round: nat, basis: nat) returns (parts: seq<seq<TaskRef>>)
    ensures RoundTook(s, ShareBelow(s, 3, round, basis), parts, round, basis)
    ensures round < 4 ==> HigherFirst(s, parts, round, basis)
  {
    parts := ShareBelowTook(s, round, basis);
    RoundAmounts(s, ShareBelow(s, 3, round, basis), parts, round, basis);
    if round < 4 { AmountsHigherFirst(s, parts, round, basis); }
  }

  /** One round over the priorities, highest first, until no node is free: while a priority is given a node, every
      higher one is given all that its quota lets it have. */
  method Round(s: Share, round: nat, basis: nat) returns (s': Share, ghost parts: seq<seq<TaskRef>>)
    ensures RoundTook(s, s', parts, round, basis) && (round < 4 ==> HigherFirst(s, parts, round, basis))
    ensures s' == ShareBelow(s, 3, round, basis)
  {
    s' := s;
    var p := 3;
    while p > 0
      invariant 0 <= p <= 3 && ShareBelow(s, 3, round, basis) == ShareBelow(s', p, round, basis)
    {
      if s'.free == 0 {
        NoNodesNoShare(s', p, round, basis);
        break;
      }
      p := p - 1;
      var quota := Quota(basis, Fraction(round, p), |s'.left[p]|);
      var taken, lists, free := TakeQuota(s'.left[p], quota, s'.free);
      s' := Share(s'.taken + taken, s'.left[p := lists], free);
    }
    parts := PartsOfRound(s, round, basis);
  }

  datatype Rest = Rest(taken: seq<TaskRef>, required: Remaining, optional: Remaining, free: nat)

  /** Rounds 0 and 1 are for required tasks, rounds 2 and 3 for optional ones. */
  function OneRound(r: Rest, round: nat, basis: nat): Rest {
    if round > 1 then
      var s := ShareBelow(Share(r.taken, r.optional, r.free), 3, round, basis);
      Rest(s.taken, r.required, s.left, s.free)
    else
      var s := ShareBelow(Share(r.taken, r.required, r.free), 3, round, basis);
      Rest(s.taken, s.left, r.optional, s.free)
  }

  function RoundsFrom(r: Rest, round: nat, basis: nat): Rest
    decreases 4 - round
  {
    if round >= 4 then r else RoundsFrom(OneRound(r, round, basis), round + 1, basis)
  }

  ghost predicate RestKeeps(r: Rest, r': Rest) {
    && r.taken <= r'.taken && r.free + |r.taken| == r'.free + |r'.taken|
    && NoEmptyList3(r'.required) && NoEmptyList3(r'.optional)
    && multiset(r'.taken) + Bags(r'.required) + Bags(r'.optional) ==
       multiset(r.taken) + Bags(r.required) + Bags(r.optional)
    && (r'.taken == r.taken ==> r' == r)
  }

  lemma OptionalRoundKeeps(r: Rest, s: Share)
    requires ShareKeeps(Share(r.taken, r.optional, r.free), s) && NoEmptyList3(r.required)
    ensures RestKeeps(r, Rest(s.taken, r.required, s.left, s.free))
  {
    SwapTail(multiset(s.taken), Bags(r.required), Bags(s.left));
    SwapTail(multiset(r.taken), Bags(r.required), Bags(r.optional));
  }

  lemma RequiredRoundKeeps(r: Rest, s: Share)
    requires ShareKeeps(Share(r.taken, r.required, r.free), s) && NoEmptyList3(r.optional)
    ensures RestKeeps(r, Rest(s.taken, s.left, r.optional, s.free))
  {
  }

  lemma OneRoundKeeps(r: Rest, round: nat, basis: nat)
    requires NoEmptyList3(r.required) && NoEmptyList3(r.optional) && basis >= r.free
    ensures RestKeeps(r, OneRound(r, round, basis))
    ensures r.free > 0 && OneRound(r, round, basis).taken == r.taken ==>
              AllEmpty(if round > 1 then r.optional else r.required)
    ensures AllEmpty(r.required) && round <= 1 ==> OneRound(r, round, basis) == r
  {
    var lists := if round > 1 then r.optional else r.required;
    var s := Share(r.taken, lists, r.free);
    ShareBelowKeeps(s, 3, round, basis);
    if round > 1 {
      OptionalRoundKeeps(r, ShareBelow(s, 3, round, basis));
    } else {
      RequiredRoundKeeps(r, ShareBelow(s, 3, round, basis));
    }
    if AllEmpty(lists) {
      NothingToShare(s, 3, round, basis);
    } else if r.free > 0 {
      RoundTakesSome(s, round, basis);
    }
  }

  lemma SwapTail(a: multiset<TaskRef>, b: multiset<TaskRef>, c: multiset<TaskRef>)
    ensures a + b + c == (a + c) + b
  {
  }

  lemma {:induction false} NothingToShare(s: Share, p: nat, round: nat, basis: nat)
    requires p <= 3 && AllEmpty(s.left)
    ensures ShareBelow(s, p, round, basis) == s
  {
    if p > 0 {
      assert s.taken + [] == s.taken && s.left[p - 1 := []] == s.left;
      NothingToShare(s, p - 1, round, basis);
    }
  }

  lemma RestKeepsTransitive(a: Rest, b: Rest, c: Rest)
    requires RestKeeps(a, b) && RestKeeps(b, c)
    ensures RestKeeps(a, c)
  {
  }

  lemma NoRoundKeeps(r: Rest)
    requires NoEmptyList3(r.required) && NoEmptyList3(r.optional)
    ensures RestKeeps(r, r)
  {
  }

  lemma {:induction false} RoundsKeepTasks(r: Rest, round: nat, basis: nat)
    requires NoEmptyList3(r.required) && NoEmptyList3(r.optional) && basis >= r.free && round <= 4
    ensures RestKeeps(r, RoundsFrom(r, round, basis))
    decreases 4 - round
  {
    if round < 4 {
      var r1 := OneRound(r, round, basis);
      OneRoundKeeps(r, round, basis);
      RoundsKeepTasks(r1, round + 1, basis);
      RestKeepsTransitive(r, r1, RoundsFrom(r1, round + 1, basis));
    } else {
      NoRoundKeeps(r);
    }
  }

  /** What it means that the rounds from `round` on took nothing. */
  ghost predicate NoneLeft(r: Rest, round: nat) {
    r.free > 0 ==> (round <= 1 ==> AllEmpty(r.required)) && (round <= 3 ==> AllEmpty(r.optional))
  }

  /** If all rounds took nothing then so did the first, and the others. */
  lemma FirstTookNothing(r: Rest, r1: Rest, r': Rest)
    requires RestKeeps(r, r1) && RestKeeps(r1, r') && r'.taken == r.taken
    ensures r1 == r
  {
  }

  lemma {:induction false} RoundsTakeAll(r: Rest, round: nat, basis: nat)
    requires NoEmptyList3(r.required) && NoEmptyList3(r.optional) && basis >= r.free && round <= 4
    requires RoundsFrom(r, round, basis).taken == r.taken
    ensures NoneLeft(r, round)
    decreases 4 - round
  {
    if round < 4 {
      var r1 := OneRound(r, round, basis);
      OneRoundKeeps(r, round, basis);
      RoundsKeepTasks(r1, round + 1, basis);
      FirstTookNothing(r, r1, RoundsFrom(r1, round + 1, basis));
      RoundsTakeAll(r, round + 1, basis);
    }
  }

  /** The second pass loses no task, and takes none only if none is left to take. */
  lemma RoundsKeep(r: Rest, round: nat, basis: nat)
    requires NoEmptyList3(r.required) && NoEmptyList3(r.optional) && basis >= r.free && round <= 4
    ensures RestKeeps(r, RoundsFrom(r, round, basis))
    ensures r.free > 0 && RoundsFrom(r, round, basis).taken == r.taken ==>
              (round <= 1 ==> AllEmpty(r.required)) && (round <= 3 ==> AllEmpty(r.optional))
  {
    RoundsKeepTasks(r, round, basis);
    if RoundsFrom(r, round, basis).taken == r.taken { RoundsTakeAll(r, round, basis); }
  }

  /** The state after a round: the first two rounds share nodes out to unmet minimums, the last two to all else. */
  ghost predicate IsRound(r: Rest, r': Rest, round: nat, basis: nat) {
    if round > 1
    then r'.required == r.required && exists parts ::
      RoundTook(Share(r.taken, r.optional, r.free), Share(r'.taken, r'.optional, r'.free), parts, round, basis)
    else r'.optional == r.optional && exists parts ::
      RoundTook(Share(r.taken, r.required, r.free), Share(r'.taken, r'.required, r'.free), parts, round, basis)
  }

  /** The states before, between and after the rounds. */
  ghost predicate AreRounds(steps: seq<Rest>, n: nat, required: Remaining, optional: Remaining, free: nat) {
    && |steps| == n + 1 && steps[0] == Rest([], required, optional, free)
    && forall k :: 0 <= k < n ==> IsRound(steps[k], steps[k + 1], k, free)
  }

  lemma OneMoreRound(steps: seq<Rest>, r: Rest, n: nat, required: Remaining, optional: Remaining, free: nat)
    requires AreRounds(steps, n, required, optional, free) && IsRound(steps[n], r, n, free)
    ensures AreRounds(steps + [r], n + 1, required, optional, free)
  {
    var steps' := steps + [r];
    forall k | 0 <= k < n + 1 ensures IsRound(steps'[k], steps'[k + 1], k, free) {
      if k < n { assert steps'[k] == steps[k] && steps'[k + 1] == steps[k + 1]; }
    }
  }

  method DoRound(r: Rest, round: nat, basis: nat) returns (r': Rest)
    ensures IsRound(r, r', round, basis) && r' == OneRound(r, round, basis)
  {
    var s;
    ghost var parts;
    if round > 1 {
      s, parts := Round(Share(r.taken, r.optional, r.free), round, basis);
      r' := Rest(s.taken, r.required, s.left, s.free);
    } else {
      s, parts := Round(Share(r.taken, r.required, r.free), round, basis);
      r' := Rest(s.taken, s.left, r.optional, s.free);
    }
  }

  method SecondPass(required: Remaining, optional: Remaining, free0: nat) returns (r: Rest, ghost steps: seq<Rest>)
    ensures AreRounds(steps, 4, required, optional, free0) && r == steps[4]
    ensures r == RoundsFrom(Rest([], required, optional, free0), 0, free0)
  {
    r := Rest([], required, optional, free0);
    steps := [r];
    for round := 0 to 4
      invariant RoundsFrom(r, round, free0) == RoundsFrom(Rest([], required, optional, free0), 0, free0)
      invariant AreRounds(steps, round, required, optional, free0) && steps[round] == r
    {
      r := DoRound(r, round, free0);
      OneMoreRound(steps, r, round, required, optional, free0);
      steps := steps + [r];
    }
  }

  // -------------------------------------------------------------------------------------------
  // Where the last node goes.

  /** The first task of the first list gets a node that is the only one. */
  lemma FirstListGetsIt(lists: seq<seq<TaskRef>>, quota: int, tasks: seq<TaskRef>, left: seq<seq<TaskRef>>)
    requires lists != [] && lists[0] != [] && quota > 0 && Took(lists, quota, 1, tasks, left)
    ensures tasks == [lists[0][0]]
  {
    var ns :| TookFronts(lists, quota, 1, ns, tasks, left);
    assert ns[..0] == [];
    assert ns[0] == Max(0, Min(1 - Sum(ns[..0]), Min(quota, |lists[0]|))) == 1;
    assert Fronts(lists, ns)[0] == [lists[0][0]];
    assert tasks[0] == lists[0][0];
  }

  /** The highest priority that has a list. */
  ghost predicate IsHighest(lists: Remaining, p: nat) {
    p < 3 && lists[p] != [] && forall q :: p < q < 3 ==> lists[q] == []
  }

  /** Of the three parts only the one of priority `p` has a task. */
  ghost predicate OnlyPart(parts: seq<seq<TaskRef>>, p: nat, task: TaskRef) {
    |parts| == 3 && p < 3 && parts == [[], [], []][p := [task]]
  }

  lemma NoListsNoneDue(s: Share, p: nat, round: nat, basis: nat)
    requires p < 3 && s.left[p] == []
    ensures Due(s, p, round, basis) == 0
  {
  }

  lemma OneNodeOneRound(s: Share, left: seq<seq<TaskRef>>, parts: seq<seq<TaskRef>>, round: nat, basis: nat, p: nat)
    requires Amounts(s, parts, round, basis) && s.free == 1 && basis > 0
    requires IsHighest(s.left, p) && s.left[p][0] != []
    requires Took(s.left[p], Quota(basis, if round % 2 == 0 then NODE_SCALE_ADJUSTMENT[p] else 1.0, |s.left[p]|), 1,
                  parts[p], left)
    ensures OnlyPart(parts, p, s.left[p][0][0])
  {
    forall q | p < q < 3 ensures Due(s, q, round, basis) == 0 { NoListsNoneDue(s, q, round, basis); }
    FirstListGetsIt(s.left[p], Quota(basis, if round % 2 == 0 then NODE_SCALE_ADJUSTMENT[p] else 1.0, |s.left[p]|),
                    parts[p], left);
  }

  lemma NoneAbove(s: Share, parts: seq<seq<TaskRef>>, round: nat, basis: nat, p: nat)
    requires Amounts(s, parts, round, basis) && IsHighest(s.left, p)
    ensures forall q :: p < q < 3 ==> |parts[q]| == 0
  {
    forall q | p < q < 3 ensures Due(s, q, round, basis) == 0 { NoListsNoneDue(s, q, round, basis); }
  }

  lemma OneNodeRound(s: Share, s': Share, parts: seq<seq<TaskRef>>, round: nat, basis: nat, p: nat)
    requires RoundTook(s, s', parts, round, basis) && s.free == 1 && basis > 0
    requires IsHighest(s.left, p) && s.left[p][0] != []
    ensures s'.taken == s.taken + [s.left[p][0][0]] && s'.free == 0
  {
    RoundAmounts(s, s', parts, round, basis);
    NoneAbove(s, parts, round, basis, p);
    assert PartTook(s, s', parts[p], 1, p, round, basis);
    OneNodeOneRound(s, s'.left[p], parts, round, basis, p);
  }

  lemma NoNodesRound(s: Share, s': Share, parts: seq<seq<TaskRef>>, round: nat, basis: nat)
    requires RoundTook(s, s', parts, round, basis) && s.free == 0
    ensures s'.taken == s.taken
  {
    RoundAmounts(s, s', parts, round, basis);
  }

  lemma PartOfNoLists(s: Share, s': Share, part: seq<TaskRef>, free: int, p: nat, round: nat, basis: nat)
    requires p < 3 && PartTook(s, s', part, free, p, round, basis) && s.left[p] == []
    ensures part == [] && s'.left[p] == []
  {
  }

  lemma NoListsRound(s: Share, s': Share, parts: seq<seq<TaskRef>>, round: nat, basis: nat)
    requires RoundTook(s, s', parts, round, basis) && AllEmpty(s.left)
    ensures s' == s
  {
    PartOfNoLists(s, s', parts[2], s.free, 2, round, basis);
    PartOfNoLists(s, s', parts[1], s.free, 1, round, basis);
    PartOfNoLists(s, s', parts[0], s.free, 0, round, basis);
    assert s'.left == s.left && s.taken + [] + [] + [] == s.taken;
  }

  /** With one node left and no minimum unmet, the node goes to the highest priority that has a list: to the first
      task of its first list. */
  lemma LastNodeGoesUp(steps: seq<Rest>, required: Remaining, optional: Remaining, p: nat)
    requires AreRounds(steps, 4, required, optional, 1) && AllEmpty(required)
    requires IsHighest(optional, p) && optional[p][0] != []
    ensures steps[4].taken == [optional[p][0][0]]
  {
    forall k | 0 <= k < 2 ensures steps[k] == steps[0] ==> steps[k + 1] == steps[k] {
      if steps[k] == steps[0] { IdleStep(steps[k], steps[k + 1], k, 1); }
    }
    assert steps[2] == steps[1] == steps[0];
    LastNodeStep(steps[2], steps[3], p);
    NoNodeStep(steps[3], steps[4]);
  }

  lemma IdleStep(r: Rest, r': Rest, round: nat, basis: nat)
    requires round <= 1 && IsRound(r, r', round, basis) && AllEmpty(r.required)
    ensures r' == r
  {
    var parts :|
      RoundTook(Share(r.taken, r.required, r.free), Share(r'.taken, r'.required, r'.free), parts, round, basis);
    NoListsRound(Share(r.taken, r.required, r.free), Share(r'.taken, r'.required, r'.free), parts, round, basis);
  }

  lemma LastNodeStep(r: Rest, r': Rest, p: nat)
    requires IsRound(r, r', 2, 1) && r.free == 1 && IsHighest(r.optional, p) && r.optional[p][0] != []
    ensures r'.taken == r.taken + [r.optional[p][0][0]] && r'.free == 0
  {
    var parts :| RoundTook(Share(r.taken, r.optional, r.free), Share(r'.taken, r'.optional, r'.free), parts, 2, 1);
    var s, s' := Share(r.taken, r.optional, r.free), Share(r'.taken, r'.optional, r'.free);
    OneNodeRound(s, s', parts, 2, 1, p);
  }

  lemma NoNodeStep(r: Rest, r': Rest)
    requires IsRound(r, r', 3, 1) && r.free == 0
    ensures r'.taken == r.taken
  {
    var parts :| RoundTook(Share(r.taken, r.optional, r.free), Share(r'.taken, r'.optional, r'.free), parts, 3, 1);
    NoNodesRound(Share(r.taken, r.optional, r.free), Share(r'.taken, r'.optional, r'.free), parts, 3, 1);
  }
}
