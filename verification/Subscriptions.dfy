/** Every run of a cluster and its subscribers: fetched lists and deltas arriving, subscriptions opened and closed,
    updates sent to one subscriber after another, each delivering its queue whenever its reader is ready. */
module Subscriptions {
  import opened MembershipSpec

  datatype Sub = Sub(initial: Nodes, delivered: seq<Update>, queue: seq<Update>)

  /** The last difference, `outgoing`, was sent to the subscribers before `sent`. */
  datatype Cluster = Cluster(nodes: Nodes, subs: seq<Sub>, outgoing: seq<Update>, sent: nat)

  datatype Event =
    | Fetch(fetched: seq<Node>, a: seq<Node>, r: seq<string>)
    | Delta(updates: seq<Update>, nodes: Nodes, let: seq<Update>, left: seq<Update>)
    | Send
    | Deliver(i: nat)
    | Subscribe
    | Close(i: nat)

  ghost predicate Enabled(c: Cluster, e: Event) {
    match e
    case Fetch(fetched, a, r) => c.sent >= |c.subs| && IsDiff(c.nodes, fetched, a, r)
    case Delta(us, m, let, left) => c.sent >= |c.subs| && Filtered(c.nodes, us, m, let, left)
    case Send => c.sent < |c.subs|
    case Deliver(i) => i < |c.subs| && c.subs[i].queue != []
    case Subscribe => c.sent >= |c.subs|
    case Close(i) => c.sent >= |c.subs| && i < |c.subs|
  }

  ghost function Next(c: Cluster, e: Event): Cluster
    requires Enabled(c, e)
  {
    match e
    case Fetch(fetched, a, r) => c.(nodes := NodesOf(fetched), outgoing := AddUpdates(a) + RemoveUpdates(r), sent := 0)
    case Delta(_, m, let, _) => c.(nodes := m, outgoing := let, sent := 0)
    case Send =>
      var s := c.subs[c.sent];
      c.(subs := c.subs[c.sent := s.(queue := s.queue + c.outgoing)], sent := c.sent + 1)
    case Deliver(i) =>
      var s := c.subs[i];
      c.(subs := c.subs[i := s.(delivered := s.delivered + s.queue, queue := [])])
    case Subscribe => c.(subs := c.subs + [Sub(c.nodes, [], [])], sent := |c.subs| + 1)
    case Close(i) => c.(subs := c.subs[..i] + c.subs[i + 1..])
  }

  /** All updates meant for subscriber `i`: delivered, queued, and those still to be sent to it. */
  function Story(c: Cluster, i: nat): seq<Update>
    requires i < |c.subs|
  {
    c.subs[i].delivered + c.subs[i].queue + if i >= c.sent then c.outgoing else []
  }

  /** A subscriber's initial members and its updates add up to the current members; `clean`: no update is redundant. */
  ghost predicate Informed(m: Nodes, initial: Nodes, story: seq<Update>, clean: bool) {
    Replay(initial, story).Keys == m.Keys && (clean ==> AllEffective(initial, story))
  }

  ghost predicate Inv(c: Cluster, clean: bool) {
    forall i :: 0 <= i < |c.subs| ==> Informed(c.nodes, c.subs[i].initial, Story(c, i), clean)
  }

  /** Which ids an update list leads to, and whether it is redundant, depends on the ids it starts from only. */
  lemma {:induction false} KeysMatter(m: Nodes, n: Nodes, us: seq<Update>)
    requires m.Keys == n.Keys
    ensures Replay(m, us).Keys == Replay(n, us).Keys && (AllEffective(m, us) <==> AllEffective(n, us))
  {
    if us != [] { KeysMatter(m, n, us[..|us| - 1]); }
  }

  lemma InformedFurther(m: Nodes, initial: Nodes, story: seq<Update>, m': Nodes, more: seq<Update>, clean: bool)
    requires Informed(m, initial, story, clean) && Replay(m, more).Keys == m'.Keys && (clean ==> AllEffective(m, more))
    ensures Informed(m', initial, story + more, clean)
  {
    ReplayAppend(initial, story, more);
    KeysMatter(Replay(initial, story), m, more);
  }

  lemma NewDifference(c: Cluster, m': Nodes, outgoing: seq<Update>, clean: bool)
    requires Inv(c, clean) && c.sent >= |c.subs| && Replay(c.nodes, outgoing).Keys == m'.Keys
    requires clean ==> AllEffective(c.nodes, outgoing)
    ensures Inv(c.(nodes := m', outgoing := outgoing, sent := 0), clean)
  {
    var c' := c.(nodes := m', outgoing := outgoing, sent := 0);
    forall i | 0 <= i < |c.subs| ensures Informed(m', c.subs[i].initial, Story(c', i), clean) {
      InformedFurther(c.nodes, c.subs[i].initial, Story(c, i), m', outgoing, clean);
      assert Story(c', i) == Story(c, i) + outgoing;
    }
  }

  lemma SameStories(c: Cluster, c': Cluster, clean: bool)
    requires Inv(c, clean) && c'.nodes == c.nodes && |c'.subs| == |c.subs|
    requires forall i :: 0 <= i < |c.subs| ==> c'.subs[i].initial == c.subs[i].initial && Story(c', i) == Story(c, i)
    ensures Inv(c', clean)
  {
  }

  lemma SendKeepsStories(c: Cluster, i: nat)
    requires Enabled(c, Send) && i < |c.subs|
    ensures Story(Next(c, Send), i) == Story(c, i)
  {
    var s := c.subs[i];
    assert s.delivered + (s.queue + c.outgoing) + [] == s.delivered + s.queue + c.outgoing;
  }

  lemma DeliverKeepsStories(c: Cluster, k: nat, i: nat)
    requires Enabled(c, Deliver(k)) && i < |c.subs|
    ensures Story(Next(c, Deliver(k)), i) == Story(c, i)
  {
    var s := c.subs[i];
    assert (s.delivered + s.queue) + [] == s.delivered + s.queue;
  }

  lemma SubscribeKeepsInv(c: Cluster, clean: bool)
    requires Inv(c, clean) && Enabled(c, Subscribe)
    ensures Inv(Next(c, Subscribe), clean)
  {
    var c' := Next(c, Subscribe);
    assert forall i :: 0 <= i < |c.subs| ==> c'.subs[i] == c.subs[i] && Story(c', i) == Story(c, i);
    assert Story(c', |c.subs|) == [];
  }

  lemma CloseKeepsInv(c: Cluster, k: nat, clean: bool)
    requires Inv(c, clean) && Enabled(c, Close(k))
    ensures Inv(Next(c, Close(k)), clean)
  {
    var c' := Next(c, Close(k));
    forall i | 0 <= i < |c'.subs| ensures Informed(c'.nodes, c'.subs[i].initial, Story(c', i), clean) {
      var j := if i < k then i else i + 1;
      assert c'.subs[i] == c.subs[j] && Story(c', i) == Story(c, j);
    }
  }

  lemma SendKeepsInv(c: Cluster, clean: bool)
    requires Inv(c, clean) && Enabled(c, Send)
    ensures Inv(Next(c, Send), clean)
  {
    forall i | 0 <= i < |c.subs| ensures Story(Next(c, Send), i) == Story(c, i) { SendKeepsStories(c, i); }
    SameStories(c, Next(c, Send), clean);
  }

  lemma DeliverKeepsInv(c: Cluster, k: nat, clean: bool)
    requires Inv(c, clean) && Enabled(c, Deliver(k))
    ensures Inv(Next(c, Deliver(k)), clean)
  {
    forall i | 0 <= i < |c.subs| ensures Story(Next(c, Deliver(k)), i) == Story(c, i) { DeliverKeepsStories(c, k, i); }
    SameStories(c, Next(c, Deliver(k)), clean);
  }

  lemma NextKeepsInv(c: Cluster, e: Event, clean: bool)
    requires Inv(c, clean) && Enabled(c, e) && (clean && e.Fetch? ==> NoDupIds(e.fetched))
    ensures Inv(Next(c, e), clean)
  {
    match e
    case Fetch(fetched, a, r) =>
      DiffReplays(c.nodes, fetched, a, r);
      NewDifference(c, NodesOf(fetched), AddUpdates(a) + RemoveUpdates(r), clean);
    case Delta(_, m, let, _) => NewDifference(c, m, let, clean);
    case Send => SendKeepsInv(c, clean);
    case Deliver(k) => DeliverKeepsInv(c, k, clean);
    case Subscribe => SubscribeKeepsInv(c, clean);
    case Close(k) => CloseKeepsInv(c, k, clean);
  }

  ghost predicate IsRun(cs: seq<Cluster>, es: seq<Event>) {
    && |cs| == |es| + 1 && cs[0].subs == []
    && forall k :: 0 <= k < |es| ==> Enabled(cs[k], es[k]) && cs[k + 1] == Next(cs[k], es[k])
  }

  ghost predicate CleanFetches(es: seq<Event>) { forall k :: 0 <= k < |es| && es[k].Fetch? ==> NoDupIds(es[k].fetched) }

  /** In every run each subscriber can tell the current members from what it was given, and no update it gets is
      redundant as long as no fetched list names an id twice. */
  lemma {:induction false} SubscribersStayInformed(cs: seq<Cluster>, es: seq<Event>, k: nat, clean: bool)
    requires IsRun(cs, es) && k <= |es| && (clean ==> CleanFetches(es))
    ensures Inv(cs[k], clean)
  {
    if k > 0 {
      SubscribersStayInformed(cs, es, k - 1, clean);
      NextKeepsInv(cs[k - 1], es[k - 1], clean);
    }
  }
}
