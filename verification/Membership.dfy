/** Cluster membership as deltas: how a cluster's view of its nodes is turned into updates, and how they add up. */
module MembershipSpec {
  import opened Sequences

  datatype Node = Node(id: string, address: string)

  datatype Update = Added(node: Node) | Removed(gone: string)

  type Nodes = map<string, Node>

  function Apply(m: Nodes, u: Update): Nodes {
    match u
    case Added(n) => m[n.id := n]
    case Removed(id) => m - {id}
  }

  function Replay(m: Nodes, us: seq<Update>): Nodes {
    if us == [] then m else Apply(Replay(m, us[..|us| - 1]), us[|us| - 1])
  }

  /** The update changes which ids are present. */
  predicate Effective(ids: set<string>, u: Update) {
    match u
    case Added(n) => n.id !in ids
    case Removed(id) => id in ids
  }

  ghost predicate AllEffective(m: Nodes, us: seq<Update>) {
    us == [] || (AllEffective(m, us[..|us| - 1]) && Effective(Replay(m, us[..|us| - 1]).Keys, us[|us| - 1]))
  }

  lemma ReplayOne(m: Nodes, us: seq<Update>, u: Update)
    ensures Replay(m, us + [u]) == Apply(Replay(m, us), u)
    ensures AllEffective(m, us + [u]) <==> AllEffective(m, us) && Effective(Replay(m, us).Keys, u)
  {
    assert (us + [u])[..|us|] == us;
  }

  lemma {:induction false} ReplayAppend(m: Nodes, a: seq<Update>, b: seq<Update>)
    ensures Replay(m, a + b) == Replay(Replay(m, a), b)
    ensures AllEffective(m, a + b) <==> AllEffective(m, a) && AllEffective(Replay(m, a), b)
  {
    if b == [] {
      assert a + b == a;
    } else {
      var init, u := b[..|b| - 1], b[|b| - 1];
      ReplayAppend(m, a, init);
      assert a + b == (a + init) + [u] && b == init + [u];
      ReplayOne(m, a + init, u);
      ReplayOne(Replay(m, a), init, u);
    }
  }

  ghost predicate Concerns(u: Update, id: string) {
    match u
    case Added(n) => n.id == id
    case Removed(gone) => gone == id
  }

  ghost predicate IsLast(us: seq<Update>, id: string, i: nat) {
    i < |us| && Concerns(us[i], id) && forall j :: i < j < |us| ==> !Concerns(us[j], id)
  }

  /** What the updates say of an id: the last that concerns it tells, and without one it is as it was. */
  ghost predicate TellsOf(m: Nodes, us: seq<Update>, id: string, m': Nodes) {
    && (forall i: nat :: IsLast(us, id, i) ==>
          if us[i].Added? then id in m' && m'[id] == us[i].node else id !in m')
    && ((forall i :: 0 <= i < |us| ==> !Concerns(us[i], id)) ==>
          (id in m' <==> id in m) && (id in m ==> m'[id] == m[id]))
  }

  lemma TellsOneMore(m: Nodes, us: seq<Update>, u: Update, id: string, m': Nodes)
    requires TellsOf(m, us, id, m')
    ensures TellsOf(m, us + [u], id, Apply(m', u))
  {
    var all := us + [u];
    assert all[|us|] == u && forall i :: 0 <= i < |us| ==> all[i] == us[i];
    forall i: nat | IsLast(all, id, i)
      ensures if all[i].Added? then id in Apply(m', u) && Apply(m', u)[id] == all[i].node else id !in Apply(m', u)
    {
      if i < |us| { assert IsLast(us, id, i); }
    }
  }

  /** After any updates, a node is present exactly if the last update about its id added it, as it was added then, or
      if there was none and it was present before. */
  lemma {:induction false} ReplayTellsLast(m: Nodes, us: seq<Update>, id: string)
    ensures TellsOf(m, us, id, Replay(m, us))
  {
    if us != [] {
      var init, u := us[..|us| - 1], us[|us| - 1];
      ReplayTellsLast(m, init, id);
      TellsOneMore(m, init, u, id, Replay(m, init));
      assert us == init + [u];
    }
  }

  // -------------------------------------------------------------------------------------------
  // Counting.

  function Adds(us: seq<Update>, id: string): nat {
    if us == [] then 0 else
    var u := us[|us| - 1];
    Adds(us[..|us| - 1], id) + if u.Added? && u.node.id == id then 1 else 0
  }

  function Removes(us: seq<Update>, id: string): nat {
    if us == [] then 0 else Removes(us[..|us| - 1], id) + if us[|us| - 1] == Removed(id) then 1 else 0
  }

  function Present(ids: set<string>, id: string): nat { if id in ids then 1 else 0 }

  /** Effective updates move an id in and out one at a time. */
  lemma {:induction false} EffectiveCounts(m: Nodes, us: seq<Update>, id: string)
    requires AllEffective(m, us)
    ensures Present(m.Keys, id) + Adds(us, id) == Present(Replay(m, us).Keys, id) + Removes(us, id)
  {
    if us != [] { EffectiveCounts(m, us[..|us| - 1], id); }
  }

  lemma {:induction false} IneffectiveCounts(ids: set<string>, us: seq<Update>, id: string)
    requires forall i :: 0 <= i < |us| ==> !Effective(ids, us[i])
    ensures if id in ids then Removes(us, id) == 0 else Adds(us, id) == 0
  {
    if us != [] { IneffectiveCounts(ids, us[..|us| - 1], id); }
  }

  /** `a` and `b` together hold the updates of `us`, each as often. */
  ghost predicate Splits(us: seq<Update>, a: seq<Update>, b: seq<Update>) {
    multiset(us) == multiset(a) + multiset(b)
  }

  lemma {:induction false} CountsAppend(a: seq<Update>, b: seq<Update>, id: string)
    ensures Adds(a + b, id) == Adds(a, id) + Adds(b, id) && Removes(a + b, id) == Removes(a, id) + Removes(b, id)
  {
    if b == [] {
      assert a + b == a;
    } else {
      assert (a + b)[..|a + b| - 1] == a + b[..|b| - 1];
      CountsAppend(a, b[..|b| - 1], id);
    }
  }

  lemma CountsWithout(us: seq<Update>, i: nat, id: string)
    requires i < |us|
    ensures var rest := Without(us, i);
      && Adds(us, id) == Adds(rest, id) + Adds([us[i]], id)
      && Removes(us, id) == Removes(rest, id) + Removes([us[i]], id)
      && multiset(us) == multiset(rest) + multiset{us[i]}
  {
    var a, b := us[..i], us[i + 1..];
    assert us == a + [us[i]] + b;
    CountsAppend(a, [us[i]], id);
    CountsAppend(a + [us[i]], b, id);
    CountsAppend(a, b, id);
  }

  lemma SameRest(a: multiset<Update>, b: multiset<Update>, u: Update)
    requires a + multiset{u} == b + multiset{u}
    ensures a == b
  {
    assert (a + multiset{u}) - multiset{u} == a && (b + multiset{u}) - multiset{u} == b;
  }

  /** The counts do not depend on the order. */
  lemma {:induction false} SameBagSameCounts(us: seq<Update>, vs: seq<Update>, id: string)
    requires multiset(us) == multiset(vs)
    ensures Adds(us, id) == Adds(vs, id) && Removes(us, id) == Removes(vs, id)
  {
    if us == [] {
      assert |vs| == |multiset(vs)| == 0;
    } else {
      var n := |us| - 1;
      assert us[n] in multiset(vs);
      var i :| 0 <= i < |vs| && vs[i] == us[n];
      CountsWithout(us, n, id);
      CountsWithout(vs, i, id);
      SameRest(multiset(Without(us, n)), multiset(Without(vs, i)), us[n]);
      SameBagSameCounts(Without(us, n), Without(vs, i), id);
    }
  }

  lemma SplitCounts(us: seq<Update>, a: seq<Update>, b: seq<Update>, id: string)
    requires Splits(us, a, b)
    ensures Adds(us, id) == Adds(a, id) + Adds(b, id) && Removes(us, id) == Removes(a, id) + Removes(b, id)
  {
    assert multiset(a + b) == multiset(us);
    SameBagSameCounts(us, a + b, id);
    CountsAppend(a, b, id);
  }

  /** What filtering owes its caller: the updates it lets through, replayed in order, are each effective and give the
      new view; none of those left over would be effective. */
  ghost predicate Filtered(m: Nodes, us: seq<Update>, m': Nodes, let: seq<Update>, left: seq<Update>) {
    && Splits(us, let, left) && AllEffective(m, let) && m' == Replay(m, let)
    && forall i :: 0 <= i < |left| ==> !Effective(m'.Keys, left[i])
  }

  /** So the order of the updates does not matter: an id is present at the end exactly when it was added, counting
      its presence at the start, more often than removed. */
  lemma PresentIffMoreAdds(m: Nodes, us: seq<Update>, m': Nodes, let: seq<Update>, left: seq<Update>, id: string)
    requires Filtered(m, us, m', let, left)
    ensures id in m' <==> Present(m.Keys, id) + Adds(us, id) > Removes(us, id)
  {
    SplitCounts(us, let, left, id);
    EffectiveCounts(m, let, id);
    IneffectiveCounts(m'.Keys, left, id);
  }

  lemma FilteredTwice(m: Nodes, us: seq<Update>, m1: Nodes, let1: seq<Update>, left1: seq<Update>,
                      m': Nodes, let2: seq<Update>, left: seq<Update>)
    requires Splits(us, let1, left1) && AllEffective(m, let1) && m1 == Replay(m, let1)
    requires Filtered(m1, left1, m', let2, left)
    ensures Filtered(m, us, m', let1 + let2, left)
  {
    ReplayAppend(m, let1, let2);
  }

  // -------------------------------------------------------------------------------------------
  // The difference between a view and a freshly fetched list of nodes.

  ghost function Ids(nodes: seq<Node>): set<string> { set n <- nodes :: n.id }

  ghost predicate NoDupIds(nodes: seq<Node>) { forall i, j :: 0 <= i < j < |nodes| ==> nodes[i].id != nodes[j].id }

  /** The view a list of nodes gives; of nodes with the same id the last counts. */
  function NodesOf(nodes: seq<Node>): Nodes {
    if nodes == [] then map[] else NodesOf(nodes[..|nodes| - 1])[nodes[|nodes| - 1].id := nodes[|nodes| - 1]]
  }

  /** Of the nodes listed with an id, the view has the last. */
  lemma {:induction false} ViewIsListed(nodes: seq<Node>, i: nat)
    requires i < |nodes| && forall j :: i < j < |nodes| ==> nodes[j].id != nodes[i].id
    ensures nodes[i].id in NodesOf(nodes) && NodesOf(nodes)[nodes[i].id] == nodes[i]
  {
    var init := nodes[..|nodes| - 1];
    if i < |init| { ViewIsListed(init, i); }
  }

  /** The listed nodes that count as added: all but the first occurrence of each id known before. */
  ghost function AddedOf(ids: set<string>, nodes: seq<Node>): seq<Node> {
    if nodes == [] then [] else
    var init, n := nodes[..|nodes| - 1], nodes[|nodes| - 1];
    AddedOf(ids, init) + if n.id in ids && n.id !in Ids(init) then [] else [n]
  }

  function AddUpdates(nodes: seq<Node>): seq<Update> { seq(|nodes|, i requires 0 <= i < |nodes| => Added(nodes[i])) }

  function RemoveUpdates(ids: seq<string>): seq<Update> { seq(|ids|, i requires 0 <= i < |ids| => Removed(ids[i])) }

  /** Additions, then removals, each in any order. */
  ghost predicate IsDiff(m: Nodes, nodes: seq<Node>, a: seq<Node>, r: seq<string>) {
    && multiset(a) == multiset(AddedOf(m.Keys, nodes))
    && NoDup(r) && (set id <- r) == m.Keys - Ids(nodes)
  }

  lemma {:induction false} AddedOfMembers(ids: set<string>, nodes: seq<Node>, n: Node)
    ensures n in AddedOf(ids, nodes) ==> n in nodes
    ensures n in nodes && n.id !in ids ==> n in AddedOf(ids, nodes)
  {
    if nodes != [] {
      var init, last := nodes[..|nodes| - 1], nodes[|nodes| - 1];
      AddedOfMembers(ids, init, n);
      assert nodes == init + [last];
    }
  }

  /** What a difference adds are nodes as they were fetched, and every one with a new id is among them. */
  lemma AddedAreListed(m: Nodes, nodes: seq<Node>, a: seq<Node>, r: seq<string>, n: Node)
    requires IsDiff(m, nodes, a, r)
    ensures n in a ==> n in nodes
    ensures n in nodes && n.id !in m ==> n in a
  {
    AddedOfMembers(m.Keys, nodes, n);
    assert n in a <==> n in multiset(a);
    assert n in AddedOf(m.Keys, nodes) <==> n in multiset(AddedOf(m.Keys, nodes));
  }

  lemma AppendIds(a: seq<Node>, n: Node)
    ensures Ids(a + [n]) == Ids(a) + {n.id}
    ensures NoDupIds(a + [n]) <==> NoDupIds(a) && n.id !in Ids(a)
  {
    if NoDupIds(a + [n]) {
      assert forall i :: 0 <= i < |a| ==> a[i] == (a + [n])[i];
      forall x | x in a ensures x.id != n.id {
        var i :| 0 <= i < |a| && a[i] == x;
        assert (a + [n])[i].id != (a + [n])[|a|].id;
      }
    } else if NoDupIds(a) {
      var i, j :| 0 <= i < j < |a + [n]| && (a + [n])[i].id == (a + [n])[j].id;
      assert j == |a| && a[i] in a;
    }
  }

  lemma {:induction false} ReplayAdds(m: Nodes, a: seq<Node>)
    ensures Replay(m, AddUpdates(a)).Keys == m.Keys + Ids(a)
    ensures AllEffective(m, AddUpdates(a)) <==> NoDupIds(a) && m.Keys !! Ids(a)
  {
    if a != [] {
      var init, n := a[..|a| - 1], a[|a| - 1];
      ReplayAdds(m, init);
      assert AddUpdates(a) == AddUpdates(init) + [Added(n)];
      ReplayOne(m, AddUpdates(init), Added(n));
      assert a == init + [n];
      AppendIds(init, n);
      DisjointOneMore(m.Keys, Ids(init), n.id);
    }
  }

  lemma DisjointOneMore(k: set<string>, a: set<string>, id: string)
    ensures k !! (a + {id}) <==> k !! a && id !in k
    ensures (k + a) + {id} == k + (a + {id})
  {
  }

  lemma {:induction false} ReplayRemoves(m: Nodes, r: seq<string>)
    requires NoDup(r) && forall id <- r :: id in m
    ensures Replay(m, RemoveUpdates(r)).Keys == m.Keys - set id <- r
    ensures AllEffective(m, RemoveUpdates(r))
  {
    if r != [] {
      var init, id := r[..|r| - 1], r[|r| - 1];
      ReplayRemoves(m, init);
      assert RemoveUpdates(r)[..|r| - 1] == RemoveUpdates(init);
      assert r == init + [id];
      assert id !in init;
    }
  }

  lemma {:induction false} AddedIds(ids: set<string>, nodes: seq<Node>)
    ensures ids + Ids(AddedOf(ids, nodes)) == ids + Ids(nodes)
    ensures NoDupIds(nodes) <==> NoDupIds(AddedOf(ids, nodes)) && ids !! Ids(AddedOf(ids, nodes))
  {
    if nodes != [] {
      var init, n := nodes[..|nodes| - 1], nodes[|nodes| - 1];
      AddedIds(ids, init);
      var a := AddedOf(ids, init);
      assert nodes == init + [n];
      AppendIds(init, n);
      AppendIds(a, n);
      assert a + [] == a;
      AddOneId(ids, Ids(init), Ids(a), n.id);
    }
  }

  lemma AddedOfAppend(ids: set<string>, nodes: seq<Node>, n: Node)
    ensures AddedOf(ids, nodes + [n]) ==
            if n.id in ids - Ids(nodes) then AddedOf(ids, nodes) else AddedOf(ids, nodes) + [n]
    ensures ids - Ids(nodes + [n]) == ids - Ids(nodes) - {n.id}
  {
    assert (nodes + [n])[..|nodes|] == nodes;
    AppendIds(nodes, n);
    assert AddedOf(ids, nodes) + [] == AddedOf(ids, nodes);
  }

  lemma AddOneId(ids: set<string>, i: set<string>, a: set<string>, id: string)
    requires ids + a == ids + i
    ensures ids + (a + {id}) == ids + (i + {id}) && (id in ids ==> ids + a == ids + (i + {id}))
    ensures ids !! (a + {id}) <==> ids !! a && id !in ids
    ensures id !in ids ==> (id in a <==> id in i)
  {
    assert id in ids + a <==> id in ids + i;
  }

  lemma AddThenRemove(k: set<string>, a: set<string>, i: set<string>)
    requires k + a == k + i
    ensures (k + a) - (k - i) == i && k - i <= k + a
  {
  }

  lemma SameBagSameIds(a: seq<Node>, b: seq<Node>)
    requires multiset(a) == multiset(b)
    ensures Ids(a) == Ids(b)
  {
    forall n ensures n in a <==> n in b { assert n in a <==> n in multiset(a); assert n in b <==> n in multiset(b); }
  }

  lemma {:induction false} IdsSize(a: seq<Node>)
    ensures |Ids(a)| <= |a| && (|Ids(a)| == |a| <==> NoDupIds(a))
  {
    if a != [] {
      var init, n := a[..|a| - 1], a[|a| - 1];
      IdsSize(init);
      assert a == init + [n];
      assert Ids(a) == Ids(init) + {n.id};
    }
  }

  lemma {:induction false} NodesOfIds(nodes: seq<Node>)
    ensures NodesOf(nodes).Keys == Ids(nodes)
  {
    if nodes != [] {
      NodesOfIds(nodes[..|nodes| - 1]);
      assert nodes == nodes[..|nodes| - 1] + [nodes[|nodes| - 1]];
    }
  }

  lemma SameBagSameDup(a: seq<Node>, b: seq<Node>)
    requires multiset(a) == multiset(b)
    ensures Ids(a) == Ids(b) && (NoDupIds(a) <==> NoDupIds(b))
  {
    SameBagSameIds(a, b);
    IdsSize(a);
    IdsSize(b);
    assert |a| == |multiset(a)| == |b|;
  }

  /** A difference always leads to the fetched ids, and is free of redundant updates exactly when no id was
      fetched twice. */
  lemma DiffReplays(m: Nodes, nodes: seq<Node>, a: seq<Node>, r: seq<string>)
    requires IsDiff(m, nodes, a, r)
    ensures Replay(m, AddUpdates(a) + RemoveUpdates(r)).Keys == NodesOf(nodes).Keys
    ensures AllEffective(m, AddUpdates(a) + RemoveUpdates(r)) <==> NoDupIds(nodes)
  {
    SameBagSameDup(a, AddedOf(m.Keys, nodes));
    AddedIds(m.Keys, nodes);
    NodesOfIds(nodes);
    ReplayAppend(m, AddUpdates(a), RemoveUpdates(r));
    ReplayAdds(m, a);
    AddThenRemove(m.Keys, Ids(a), Ids(nodes));
    ReplayRemoves(Replay(m, AddUpdates(a)), r);
  }

  // -------------------------------------------------------------------------------------------
  // Sorting by id.

  predicate LessOrEqual(a: string, b: string) {
    a == "" || (b != "" && (a[0] < b[0] || (a[0] == b[0] && LessOrEqual(a[1..], b[1..]))))
  }

  lemma {:induction false} EitherOrder(a: string, b: string)
    ensures LessOrEqual(a, b) || LessOrEqual(b, a)
  {
    if a != "" && b != "" && a[0] == b[0] { EitherOrder(a[1..], b[1..]); }
  }

  function Insert<T>(x: T, s: seq<T>, key: T -> string): (r: seq<T>)
    ensures multiset(r) == multiset{x} + multiset(s)
  {
    if s == [] || LessOrEqual(key(x), key(s[0])) then [x] + s else
    assert s == [s[0]] + s[1..];
    [s[0]] + Insert(x, s[1..], key)
  }

  function Sort<T>(s: seq<T>, key: T -> string): (r: seq<T>)
    ensures multiset(r) == multiset(s)
  {
    if s == [] then [] else
    assert s == [s[0]] + s[1..];
    Insert(s[0], Sort(s[1..], key), key)
  }

  ghost predicate InOrder<T>(s: seq<T>, key: T -> string) {
    forall i :: 0 <= i < |s| - 1 ==> LessOrEqual(key(s[i]), key(s[i + 1]))
  }

  lemma {:induction false} InsertInOrder<T>(x: T, s: seq<T>, key: T -> string)
    requires InOrder(s, key)
    ensures InOrder(Insert(x, s, key), key)
  {
    if s != [] && !LessOrEqual(key(x), key(s[0])) {
      EitherOrder(key(x), key(s[0]));
      InsertInOrder(x, s[1..], key);
      var t := Insert(x, s[1..], key);
      assert t[0] == x || (|s| > 1 && t[0] == s[1]);
      assert Insert(x, s, key) == [s[0]] + t;
    }
  }

  lemma {:induction false} SortInOrder<T>(s: seq<T>, key: T -> string)
    ensures InOrder(Sort(s, key), key)
  {
    if s != [] {
      SortInOrder(s[1..], key);
      InsertInOrder(s[0], Sort(s[1..], key), key);
    }
  }

  lemma SortedIds(r0: seq<string>, r: seq<string>)
    requires NoDup(r0) && multiset(r) == multiset(r0)
    ensures NoDup(r) && (set id <- r) == (set id <- r0)
  {
    SubBagNoDup(r, r0);
    SubBagNoDup(r0, r);
  }
}

module Membership {
  import opened MembershipSpec
  import opened Sequences

  class State {
    var nodes: Nodes

    constructor ()
      ensures nodes == map[]
    {
      nodes := map[];
    }

    /** Takes over a fetched list of nodes and tells the difference: additions, then removals, each sorted by id. */
    method SetAndDiff(fetched: seq<Node>) returns (outgoing: seq<Update>, ghost a: seq<Node>, ghost r: seq<string>)
      modifies this
      ensures nodes == NodesOf(fetched) && IsDiff(old(nodes), fetched, a, r)
      ensures outgoing == AddUpdates(a) + RemoveUpdates(r)
      ensures InOrder(a, (n: Node) => n.id) && InOrder(r, (id: string) => id)
    {
      var added;
      nodes, added := TakeKnown(nodes, fetched);
      var gone := Listed(nodes);
      var sorted, sortedGone := Sort(added, (n: Node) => n.id), Sort(gone, (id: string) => id);
      SortInOrder(added, (n: Node) => n.id);
      SortInOrder(gone, (id: string) => id);
      SortedIds(gone, sortedGone);
      a, r := sorted, sortedGone;
      outgoing := AddUpdates(sorted) + RemoveUpdates(sortedGone);
      nodes := map[];
      for i := 0 to |fetched|
        invariant nodes == NodesOf(fetched[..i])
      {
        assert fetched[..i + 1][..i] == fetched[..i];
        nodes := nodes[fetched[i].id := fetched[i]];
      }
      assert fetched[..|fetched|] == fetched;
    }

    /** One pass over the updates: each is applied if it is effective then, and kept back otherwise. */
    method OnePass(us: seq<Update>) returns (let: seq<Update>, left: seq<Update>)
      modifies this
      ensures Splits(us, let, left) && AllEffective(old(nodes), let) && nodes == Replay(old(nodes), let)
      ensures |let| + |left| == |us|
      ensures let == [] ==> left == us && forall i :: 0 <= i < |left| ==> !Effective(nodes.Keys, left[i])
    {
      let, left := [], [];
      for i := 0 to |us|
        invariant Splits(us[..i], let, left) && AllEffective(old(nodes), let) && nodes == Replay(old(nodes), let)
        invariant |let| + |left| == i
        invariant let == [] ==> left == us[..i] && forall j :: 0 <= j < |left| ==> !Effective(nodes.Keys, left[j])
      {
        var u := us[i];
        assert us[..i + 1] == us[..i] + [u];
        SplitsGrow(us[..i], let, left, u);
        if Effective(nodes.Keys, u) {
          ReplayOne(old(nodes), let, u);
          nodes := Apply(nodes, u);
          let := let + [u];
        } else {
          left := left + [u];
        }
      }
      assert us[..|us|] == us;
    }

    /** Passes over the updates until one applies all of them or none. */
    method FilterAndUpdate(us: seq<Update>) returns (let: seq<Update>, ghost left: seq<Update>)
      modifies this
      ensures Filtered(old(nodes), us, nodes, let, left)
      decreases |us|
    {
      var unused;
      let, unused := OnePass(us);
      left := unused;
      if |unused| == 0 || |unused| == |us| { return; }
      ghost var nodes1, let1 := nodes, let;
      var next;
      next, left := FilterAndUpdate(unused);
      let := let + next;
      FilteredTwice(old(nodes), us, nodes1, let1, unused, nodes, next, left);
    }
  }

  /** The nodes of a fetched list that are new, the view being left with those that are gone. */
  method TakeKnown(m: Nodes, fetched: seq<Node>) returns (gone: Nodes, added: seq<Node>)
    ensures gone.Keys == m.Keys - Ids(fetched) && added == AddedOf(m.Keys, fetched)
  {
    gone, added := m, [];
    for i := 0 to |fetched|
      invariant gone.Keys == m.Keys - Ids(fetched[..i]) && added == AddedOf(m.Keys, fetched[..i])
    {
      var n := fetched[i];
      assert fetched[..i + 1] == fetched[..i] + [n];
      AddedOfAppend(m.Keys, fetched[..i], n);
      if n.id in gone {
        gone := gone - {n.id};
      } else {
        added := added + [n];
      }
    }
    assert fetched[..|fetched|] == fetched;
  }

  method Listed(m: Nodes) returns (ids: seq<string>)
    ensures NoDup(ids) && (set id <- ids) == m.Keys
  {
    ids := [];
    var todo := m.Keys;
    while todo != {}
      invariant todo <= m.Keys && (set id <- ids) + todo == m.Keys && forall id <- ids :: id !in todo
      invariant NoDup(ids)
      decreases |todo|
    {
      var id :| id in todo;
      todo := todo - {id};
      ids := ids + [id];
    }
  }

  lemma SplitsGrow(us: seq<Update>, a: seq<Update>, b: seq<Update>, u: Update)
    requires Splits(us, a, b)
    ensures Splits(us + [u], a + [u], b) && Splits(us + [u], a, b + [u])
  {
  }
}
