/** The worker's table of run statuses, with listeners waiting for a status that matches their query. */
module StatusSpec {
  import opened RunStatuses

  /** A client waiting on channel `ch` for a status that matches `q`. */
  datatype Listener = Listener(q: Query, ch: nat)

  /** `sent` holds what was put on each channel made so far. */
  datatype Store = Store(runs: map<nat, RunStatus>, fifo: seq<nat>, capacity: nat, nextRunId: nat,
                         listeners: seq<Listener>, sent: seq<seq<RunStatus>>)

  // -------------------------------------------------------------------------------------------
  // Operations.

  /** A new run is PENDING; if the history is full its oldest entry makes room. */
  function NewRun(s: Store): Store {
    var runs, fifo := s.runs[s.nextRunId := RunStatus(s.nextRunId, PENDING, "", "", "")], s.fifo + [s.nextRunId];
    if s.capacity != 0 && |fifo| > s.capacity
    then s.(runs := runs - {fifo[0]}, fifo := fifo[1..], nextRunId := s.nextRunId + 1)
    else s.(runs := runs, fifo := fifo, nextRunId := s.nextRunId + 1)
  }

  function Merge(was: RunStatus, st: RunStatus): RunStatus {
    st.(stdoutRef := if st.stdoutRef == "" then was.stdoutRef else st.stdoutRef,
        stderrRef := if st.stderrRef == "" then was.stderrRef else st.stderrRef)
  }

  /** The listeners that go on waiting after a status was offered to each. */
  function StillWaiting(listeners: seq<Listener>, st: RunStatus): seq<Listener> {
    if listeners == [] then [] else
    var l := listeners[|listeners| - 1];
    StillWaiting(listeners[..|listeners| - 1], st) + if Matches(l.q, st) then [] else [l]
  }

  /** The channels after a status was put on that of each listener it matches. */
  function Served(listeners: seq<Listener>, sent: seq<seq<RunStatus>>, st: RunStatus): (r: seq<seq<RunStatus>>)
    ensures |r| == |sent|
  {
    if listeners == [] then sent else
    var sent1, l := Served(listeners[..|listeners| - 1], sent, st), listeners[|listeners| - 1];
    if Matches(l.q, st) && l.ch < |sent1| then sent1[l.ch := sent1[l.ch] + [st]] else sent1
  }

  /** A status is written unless the run is unknown or done already. */
  function Update(s: Store, st: RunStatus): Store {
    if st.id !in s.runs || IsDone(s.runs[st.id].state) then s else
    var merged := Merge(s.runs[st.id], st);
    s.(runs := s.runs[st.id := merged], listeners := StillWaiting(s.listeners, merged),
       sent := Served(s.listeners, s.sent, merged))
  }

  function Erase(s: Store, id: nat): Store {
    if id in s.runs && IsDone(s.runs[id].state) then s.(runs := s.runs - {id}) else s
  }

  /** The stored statuses a query is for; a query for particular runs needs all of them to be stored. */
  ghost predicate Knows(s: Store, q: Query) { q.allRuns || forall id <- q.runs :: id in s.runs }

  ghost function Matching(s: Store, q: Query): set<RunStatus> {
    set id | id in s.runs && Matches(q, s.runs[id]) :: s.runs[id]
  }

  function Listen(s: Store, q: Query): Store {
    s.(listeners := s.listeners + [Listener(q, |s.sent|)], sent := s.sent + [[]])
  }

  // -------------------------------------------------------------------------------------------
  // The invariant.

  ghost predicate RunsOk(s: Store) {
    && (forall id <- s.runs :: s.runs[id].id == id && id < s.nextRunId)
    && (forall i :: 0 <= i < |s.fifo| ==> s.fifo[i] < s.nextRunId)
  }

  /** No stored status is one a listener waits for, but for a PENDING run that is newer than its query for all runs. */
  ghost predicate NoLostWakeUp(s: Store) {
    forall i, id :: 0 <= i < |s.listeners| && id in s.runs && Matches(s.listeners[i].q, s.runs[id]) ==>
      s.listeners[i].q.allRuns && s.runs[id].state == PENDING
  }

  ghost predicate ChannelsOk(listeners: seq<Listener>, sent: seq<seq<RunStatus>>) {
    && (forall i :: 0 <= i < |listeners| ==> listeners[i].ch < |sent| && sent[listeners[i].ch] == [])
    && (forall i, j :: 0 <= i < j < |listeners| ==> listeners[i].ch != listeners[j].ch)
  }

  ghost predicate ListenersOk(s: Store) {
    && ChannelsOk(s.listeners, s.sent)
    && (forall i, k :: 0 <= i < |s.listeners| && 0 <= k < |s.listeners[i].q.runs| && !s.listeners[i].q.allRuns ==>
          s.listeners[i].q.runs[k] < s.nextRunId)
  }

  /** Nobody is ever sent more than one status. */
  ghost predicate SentOnce(s: Store) { forall c :: 0 <= c < |s.sent| ==> |s.sent[c]| <= 1 }

  ghost predicate Inv(s: Store) { RunsOk(s) && NoLostWakeUp(s) && ListenersOk(s) && SentOnce(s) }

  lemma NewRunKeepsInv(s: Store)
    requires Inv(s)
    ensures Inv(NewRun(s))
  {
    NewRunKeepsRuns(s);
    NewRunKeepsListeners(s);
    NewRunKeepsWakeUps(s);
  }

  lemma NewRunKeepsRuns(s: Store)
    requires RunsOk(s)
    ensures RunsOk(NewRun(s))
  {
  }

  lemma NewRunKeepsListeners(s: Store)
    requires ListenersOk(s)
    ensures ListenersOk(NewRun(s))
  {
  }

  lemma NewRunKeepsWakeUps(s: Store)
    requires ListenersOk(s) && NoLostWakeUp(s)
    ensures NoLostWakeUp(NewRun(s))
  {
    forall i, id | 0 <= i < |s.listeners| && id in NewRun(s).runs && Matches(s.listeners[i].q, NewRun(s).runs[id])
      ensures s.listeners[i].q.allRuns && NewRun(s).runs[id].state == PENDING
    {
      var q := s.listeners[i].q;
      if id == s.nextRunId && !q.allRuns { assert false; }
    }
  }

  lemma {:induction false} StillWaitingIsFilter(listeners: seq<Listener>, st: RunStatus)
    requires forall i, j :: 0 <= i < j < |listeners| ==> listeners[i].ch != listeners[j].ch
    ensures var waiting := StillWaiting(listeners, st);
      && (forall l :: l in waiting <==> l in listeners && !Matches(l.q, st))
      && (forall i, j :: 0 <= i < j < |waiting| ==> waiting[i].ch != waiting[j].ch)
  {
    if listeners != [] {
      var init, l := listeners[..|listeners| - 1], listeners[|listeners| - 1];
      assert listeners == init + [l];
      StillWaitingIsFilter(init, st);
      FilterLast(init, l, StillWaiting(init, st), st);
    }
  }

  lemma FilterLast(init: seq<Listener>, l: Listener, waiting: seq<Listener>, st: RunStatus)
    requires forall k <- init :: k.ch != l.ch
    requires forall k :: k in waiting <==> k in init && !Matches(k.q, st)
    requires forall i, j :: 0 <= i < j < |waiting| ==> waiting[i].ch != waiting[j].ch
    ensures var waiting' := waiting + if Matches(l.q, st) then [] else [l];
      && (forall k :: k in waiting' <==> k in init + [l] && !Matches(k.q, st))
      && (forall i, j :: 0 <= i < j < |waiting'| ==> waiting'[i].ch != waiting'[j].ch)
  {
    assert forall i :: 0 <= i < |waiting| ==> waiting[i] in waiting && waiting[i] in init;
  }

  /** Some listener on the channel is for the status. */
  ghost predicate IsFor(listeners: seq<Listener>, c: nat, st: RunStatus) {
    exists l <- listeners :: l.ch == c && Matches(l.q, st)
  }

  lemma IsForLast(init: seq<Listener>, l: Listener, c: nat, st: RunStatus)
    ensures IsFor(init + [l], c, st) <==> IsFor(init, c, st) || (l.ch == c && Matches(l.q, st))
  {
    assert l in init + [l] && forall k <- init :: k in init + [l];
  }

  /** Exactly the listeners a status matches are sent it, each once. */
  lemma {:induction false} ServedOnce(listeners: seq<Listener>, sent: seq<seq<RunStatus>>, st: RunStatus, c: nat)
    requires forall i :: 0 <= i < |listeners| ==> listeners[i].ch < |sent|
    requires forall i, j :: 0 <= i < j < |listeners| ==> listeners[i].ch != listeners[j].ch
    requires c < |sent|
    ensures Served(listeners, sent, st)[c] == sent[c] + if IsFor(listeners, c, st) then [st] else []
  {
    if listeners == [] {
      assert sent[c] + [] == sent[c];
    } else {
      var init, l := listeners[..|listeners| - 1], listeners[|listeners| - 1];
      assert listeners == init + [l];
      NotBefore(listeners, st);
      ServedOnce(init, sent, st, c);
      ServedLast(init, l, sent[c], Served(init, sent, st), c, st);
    }
  }

  /** The last listener's channel is its own. */
  lemma NotBefore(listeners: seq<Listener>, st: RunStatus)
    requires listeners != [] && forall i, j :: 0 <= i < j < |listeners| ==> listeners[i].ch != listeners[j].ch
    ensures !IsFor(listeners[..|listeners| - 1], listeners[|listeners| - 1].ch, st)
  {
  }

  lemma ServedLast(init: seq<Listener>, l: Listener, was: seq<RunStatus>, sent: seq<seq<RunStatus>>, c: nat,
                   st: RunStatus)
    requires c < |sent| && l.ch < |sent| && !IsFor(init, l.ch, st)
    requires sent[c] == was + if IsFor(init, c, st) then [st] else []
    ensures var sent' := if Matches(l.q, st) then sent[l.ch := sent[l.ch] + [st]] else sent;
      sent'[c] == was + if IsFor(init + [l], c, st) then [st] else []
  {
    IsForLast(init, l, c, st);
    if l.ch == c { assert was + [] == was; }
  }

  /** Each channel has what it had, and the status if a listener on it is for it. */
  ghost predicate SentTo(listeners: seq<Listener>, sent: seq<seq<RunStatus>>, sent': seq<seq<RunStatus>>,
                         st: RunStatus) {
    |sent'| == |sent| && forall c :: 0 <= c < |sent| ==>
      sent'[c] == sent[c] + if IsFor(listeners, c, st) then [st] else []
  }

  lemma AllServedOnce(listeners: seq<Listener>, sent: seq<seq<RunStatus>>, st: RunStatus)
    requires ChannelsOk(listeners, sent)
    ensures SentTo(listeners, sent, Served(listeners, sent, st), st)
  {
    forall c: nat | c < |sent|
      ensures Served(listeners, sent, st)[c] == sent[c] + if IsFor(listeners, c, st) then [st] else []
    {
      ServedOnce(listeners, sent, st, c);
    }
  }

  lemma UpdateKeepsInv(s: Store, st: RunStatus)
    requires Inv(s)
    ensures Inv(Update(s, st))
  {
    if st.id in s.runs && !IsDone(s.runs[st.id].state) {
      var merged := Merge(s.runs[st.id], st);
      StillWaitingIsFilter(s.listeners, merged);
      AllServedOnce(s.listeners, s.sent, merged);
      WrittenKeepsWakeUps(s, Update(s, st), merged);
      WrittenKeepsListeners(s, Update(s, st), merged);
    }
  }

  lemma WrittenKeepsWakeUps(s: Store, s': Store, st: RunStatus)
    requires NoLostWakeUp(s) && s'.runs == s.runs[st.id := st]
    requires forall l <- s'.listeners :: l in s.listeners && !Matches(l.q, st)
    ensures NoLostWakeUp(s')
  {
    forall i, id | 0 <= i < |s'.listeners| && id in s'.runs && Matches(s'.listeners[i].q, s'.runs[id])
      ensures s'.listeners[i].q.allRuns && s'.runs[id].state == PENDING
    {
      assert s'.listeners[i] in s.listeners;
      var k :| 0 <= k < |s.listeners| && s.listeners[k] == s'.listeners[i];
      assert id != st.id;
    }
  }

  /** A listener that a status is not for keeps its empty channel. */
  lemma UnmatchedStaysEmpty(s: Store, s': Store, st: RunStatus, l: Listener)
    requires ListenersOk(s) && SentTo(s.listeners, s.sent, s'.sent, st) && l in s.listeners && !Matches(l.q, st)
    ensures l.ch < |s'.sent| && s'.sent[l.ch] == []
    ensures forall k :: 0 <= k < |l.q.runs| && !l.q.allRuns ==> l.q.runs[k] < s.nextRunId
  {
    var j :| 0 <= j < |s.listeners| && s.listeners[j] == l;
    assert forall k <- s.listeners :: k.ch == l.ch ==> k == l;
  }

  lemma ChannelsStayOnce(s: Store, s': Store, st: RunStatus)
    requires ListenersOk(s) && SentOnce(s) && SentTo(s.listeners, s.sent, s'.sent, st)
    ensures SentOnce(s')
  {
  }

  lemma WrittenKeepsListeners(s: Store, s': Store, st: RunStatus)
    requires ListenersOk(s) && SentOnce(s) && s'.nextRunId == s.nextRunId
    requires forall l :: l in s'.listeners <==> l in s.listeners && !Matches(l.q, st)
    requires forall i, j :: 0 <= i < j < |s'.listeners| ==> s'.listeners[i].ch != s'.listeners[j].ch
    requires SentTo(s.listeners, s.sent, s'.sent, st)
    ensures ListenersOk(s') && SentOnce(s')
  {
    forall i | 0 <= i < |s'.listeners|
      ensures s'.listeners[i].ch < |s'.sent| && s'.sent[s'.listeners[i].ch] == []
      ensures forall k :: 0 <= k < |s'.listeners[i].q.runs| && !s'.listeners[i].q.allRuns ==>
                s'.listeners[i].q.runs[k] < s'.nextRunId
    {
      assert s'.listeners[i] in s'.listeners;
      UnmatchedStaysEmpty(s, s', st, s'.listeners[i]);
    }
    ChannelsStayOnce(s, s', st);
  }

  lemma EraseKeepsInv(s: Store, id: nat)
    requires Inv(s)
    ensures Inv(Erase(s, id))
  {
  }

  /** Waiting is safe: a client starts to wait only when no stored status matches. */
  lemma ListenKeepsInv(s: Store, q: Query)
    requires Inv(s) && Knows(s, q) && Matching(s, q) == {}
    ensures Inv(Listen(s, q))
  {
    NothingMatches(s, q);
    KnownAreOld(s, q);
    ListenKeepsWakeUps(s, q);
    ListenKeepsListeners(s, q);
  }

  lemma ListenKeepsWakeUps(s: Store, q: Query)
    requires NoLostWakeUp(s) && forall id <- s.runs :: !Matches(q, s.runs[id])
    ensures NoLostWakeUp(Listen(s, q))
  {
    var s' := Listen(s, q);
    assert forall i :: 0 <= i < |s.listeners| ==> s'.listeners[i] == s.listeners[i];
  }

  lemma ListenKeepsListeners(s: Store, q: Query)
    requires ListenersOk(s) && SentOnce(s)
    requires forall k :: 0 <= k < |q.runs| && !q.allRuns ==> q.runs[k] < s.nextRunId
    ensures ListenersOk(Listen(s, q)) && SentOnce(Listen(s, q))
  {
    var s' := Listen(s, q);
    assert forall i :: 0 <= i < |s.listeners| ==> s'.listeners[i] == s.listeners[i];
  }

  lemma NothingMatches(s: Store, q: Query)
    requires Matching(s, q) == {}
    ensures forall id <- s.runs :: !Matches(q, s.runs[id])
  {
    forall id | id in s.runs ensures !Matches(q, s.runs[id]) { assert s.runs[id] !in Matching(s, q); }
  }

  lemma KnownAreOld(s: Store, q: Query)
    requires RunsOk(s) && Knows(s, q)
    ensures forall k :: 0 <= k < |q.runs| && !q.allRuns ==> q.runs[k] < s.nextRunId
  {
    forall k | 0 <= k < |q.runs| && !q.allRuns ensures q.runs[k] < s.nextRunId { assert q.runs[k] in q.runs; }
  }

  datatype Event = New | Write(st: RunStatus) | Drop(id: nat) | Wait(q: Query)

  ghost predicate Enabled(s: Store, e: Event) { e.Wait? ==> Knows(s, e.q) && Matching(s, e.q) == {} }

  function Next(s: Store, e: Event): Store {
    match e
    case New => NewRun(s)
    case Write(st) => Update(s, st)
    case Drop(id) => Erase(s, id)
    case Wait(q) => Listen(s, q)
  }

  ghost predicate IsRun(ss: seq<Store>, es: seq<Event>) {
    && |ss| == |es| + 1 && ss[0] == Store(map[], [], ss[0].capacity, 0, [], [])
    && forall k :: 0 <= k < |es| ==> Enabled(ss[k], es[k]) && ss[k + 1] == Next(ss[k], es[k])
  }

  /** In every run no wake-up is lost and nobody is woken twice. */
  lemma {:induction false} RunKeepsInv(ss: seq<Store>, es: seq<Event>, k: nat)
    requires IsRun(ss, es) && k <= |es|
    ensures Inv(ss[k])
  {
    if k > 0 {
      RunKeepsInv(ss, es, k - 1);
      match es[k - 1]
      case New => NewRunKeepsInv(ss[k - 1]);
      case Write(st) => UpdateKeepsInv(ss[k - 1], st);
      case Drop(id) => EraseKeepsInv(ss[k - 1], id);
      case Wait(q) => ListenKeepsInv(ss[k - 1], q);
    }
  }

  /** A status that is done stays as it is for as long as it is stored. */
  lemma {:induction false} DoneIsFinal(ss: seq<Store>, es: seq<Event>, j: nat, k: nat, id: nat)
    requires IsRun(ss, es) && j <= k <= |es| && id in ss[j].runs && IsDone(ss[j].runs[id].state)
    ensures id in ss[k].runs ==> ss[k].runs[id] == ss[j].runs[id]
    ensures id < ss[k].nextRunId
    decreases k
  {
    RunKeepsInv(ss, es, j);
    if j < k { DoneIsFinal(ss, es, j, k - 1, id); }
  }

  /** The client that got channel `c` for query `q` is still waiting, or was sent one status, which matches. */
  ghost predicate Answered(s: Store, q: Query, c: nat) {
    && c < |s.sent|
    && if s.sent[c] == [] then Listener(q, c) in s.listeners else |s.sent[c]| == 1 && Matches(q, s.sent[c][0])
  }

  /** What was put on the channel is stored. */
  ghost predicate IsStored(s: Store, c: nat) {
    c < |s.sent| && s.sent[c] != [] && var st := s.sent[c][0]; st.id in s.runs && s.runs[st.id] == st
  }

  lemma OneListenerEach(s: Store, c: nat, l: Listener)
    requires ListenersOk(s) && l in s.listeners && l.ch == c
    ensures forall k <- s.listeners :: k.ch == c ==> k == l
  {
  }

  lemma UpdateAnswers(s: Store, st: RunStatus, q: Query, c: nat)
    requires Inv(s) && Answered(s, q, c)
    ensures Answered(Update(s, st), q, c)
    ensures Update(s, st).sent[c] == s.sent[c] || IsStored(Update(s, st), c)
  {
    if st.id in s.runs && !IsDone(s.runs[st.id].state) {
      var merged := Merge(s.runs[st.id], st);
      StillWaitingIsFilter(s.listeners, merged);
      ServedOnce(s.listeners, s.sent, merged, c);
      if s.sent[c] == [] {
        OneListenerEach(s, c, Listener(q, c));
      } else {
        assert forall l <- s.listeners :: l.ch != c;
      }
    }
  }

  lemma NextAnswers(s: Store, e: Event, q: Query, c: nat)
    requires Inv(s) && Answered(s, q, c)
    ensures Answered(Next(s, e), q, c)
    ensures Next(s, e).sent[c] == s.sent[c] || IsStored(Next(s, e), c)
  {
    match e
    case New =>
    case Write(st) => UpdateAnswers(s, st, q, c);
    case Drop(id) =>
    case Wait(p) =>
  }

  lemma AnsweredOn(ss: seq<Store>, es: seq<Event>, k: nat, q: Query, c: nat)
    requires IsRun(ss, es) && k < |es| && Answered(ss[k], q, c)
    ensures Answered(ss[k + 1], q, c)
    ensures ss[k + 1].sent[c] == ss[k].sent[c] || IsStored(ss[k + 1], c)
  {
    RunKeepsInv(ss, es, k);
    NextAnswers(ss[k], es[k], q, c);
  }

  /** In every run, whoever waits is sent at most one status, and what is sent matches the query and was stored when
      it was sent. */
  lemma {:induction false} WaitIsAnswered(ss: seq<Store>, es: seq<Event>, j: nat, k: nat) returns (i: nat)
    requires IsRun(ss, es) && j < k <= |es| && es[j].Wait?
    ensures var c := |ss[j].sent|;
      && Answered(ss[k], es[j].q, c)
      && (ss[k].sent[c] != [] ==> j < i <= k && IsStored(ss[i], c) && ss[i].sent[c] == ss[k].sent[c])
    decreases k
  {
    var c := |ss[j].sent|;
    i := k;
    if k > j + 1 {
      var i0 := WaitIsAnswered(ss, es, j, k - 1);
      AnsweredOn(ss, es, k - 1, es[j].q, c);
      if ss[k].sent[c] == ss[k - 1].sent[c] { i := i0; }
    } else {
      ListenAnswers(ss[j], es[j].q);
    }
  }

  lemma ListenAnswers(s: Store, q: Query)
    ensures Answered(Listen(s, q), q, |s.sent|) && Listen(s, q).sent[|s.sent|] == []
  {
  }

  /** What a client is sent that waits for runs to be done is final: however the run goes on, the run's status is
      this one for as long as it is stored. */
  lemma FinalStatusIsFinal(ss: seq<Store>, es: seq<Event>, j: nat, k: nat, l: nat)
    requires IsRun(ss, es) && j < k <= l <= |es| && es[j].Wait? && es[j].q.states == DONE_MASK
    requires |ss[j].sent| < |ss[k].sent| && ss[k].sent[|ss[j].sent|] != []
    ensures var st := ss[k].sent[|ss[j].sent|][0];
      && IsDone(st.state) && (es[j].q.allRuns || st.id in es[j].q.runs)
      && (st.id in ss[l].runs ==> ss[l].runs[st.id] == st)
  {
    var c := |ss[j].sent|;
    var i := WaitIsAnswered(ss, es, j, k);
    var st := ss[k].sent[c][0];
    DoneMaskIsDone(st.state);
    DoneIsFinal(ss, es, i, l, st.id);
  }

  /** The plain filter over a list of statuses. */
  function Filter(statuses: seq<RunStatus>, q: Query): seq<RunStatus> {
    if statuses == [] then [] else
    var init, st := statuses[..|statuses| - 1], statuses[|statuses| - 1];
    Filter(init, q) + if Matches(q, st) then [st] else []
  }

  lemma {:induction false} FilterKeepsMatches(statuses: seq<RunStatus>, q: Query)
    ensures forall st :: st in Filter(statuses, q) <==> st in statuses && Matches(q, st)
  {
    if statuses != [] {
      FilterKeepsMatches(statuses[..|statuses| - 1], q);
      assert statuses == statuses[..|statuses| - 1] + [statuses[|statuses| - 1]];
    }
  }

  /** Filtering any listing of the stored statuses finds the same ones as a query. */
  lemma PlainFilterAgrees(s: Store, q: Query, all: seq<RunStatus>)
    requires RunsOk(s) && forall st :: st in all <==> st.id in s.runs && s.runs[st.id] == st
    ensures forall st :: st in Filter(all, q) <==> st in Matching(s, q)
  {
    FilterKeepsMatches(all, q);
  }

  /** A new run wakes nobody, though a client may be waiting for just that. */
  lemma NewRunWakesNobody(s: Store, q: Query)
    requires Inv(s) && q.allRuns && MaskMatches(q.states, PENDING)
    ensures var s' := NewRun(s);
      && s'.listeners == s.listeners && s'.sent == s.sent
      && s.nextRunId in s'.runs && Matches(q, s'.runs[s.nextRunId])
  {
    if s.fifo != [] { assert s.fifo[0] < s.nextRunId; }
  }

  /** No stored status is one that a client with this query waits for. */
  ghost predicate NoneUnnoticed(s: Store, q: Query) {
    forall i, id :: 0 <= i < |s.listeners| && s.listeners[i].q == q && id in s.runs ==> !Matches(q, s.runs[id])
  }

  /** A client waits for any PENDING run, a run is added, and the client is not told. */
  lemma PendingRunUnnoticed(capacity: nat, q: Query) returns (ss: seq<Store>, es: seq<Event>)
    requires q.allRuns && MaskMatches(q.states, PENDING)
    ensures IsRun(ss, es) && ss[0].capacity == capacity && !NoneUnnoticed(ss[|es|], q)
  {
    var s0 := Store(map[], [], capacity, 0, [], []);
    var s1 := Listen(s0, q);
    assert Matching(s0, q) == {};
    ss, es := [s0, s1, NewRun(s1)], [Wait(q), New];
    assert s1.listeners[0].q == q;
    RunKeepsInv(ss[..2], es[..1], 1);
    NewRunWakesNobody(s1, q);
  }

  /** Whatever the history's capacity, a query is one for which no wake-up is ever lost, in any run, exactly when it
      is not for PENDING among all runs. */
  lemma PendingGoesUnnoticed(capacity: nat, q: Query)
    ensures (forall ss: seq<Store>, es: seq<Event> ::
               IsRun(ss, es) && ss[0].capacity == capacity ==> NoneUnnoticed(ss[|es|], q)) <==>
            !(q.allRuns && MaskMatches(q.states, PENDING))
  {
    if q.allRuns && MaskMatches(q.states, PENDING) {
      var ss, es := PendingRunUnnoticed(capacity, q);
    } else {
      forall ss: seq<Store>, es: seq<Event> | IsRun(ss, es) && ss[0].capacity == capacity
        ensures NoneUnnoticed(ss[|es|], q)
      {
        RunKeepsInv(ss, es, |es|);
      }
    }
  }
}

module StatusStore {
  import opened Wrappers
  import opened RunStatuses
  import opened StatusSpec

  /** What a query gets: an unknown run, the matching statuses, or a channel to wait on. */
  datatype Answer = UnknownRun(id: nat) | Now(statuses: seq<RunStatus>) | Later(ch: nat)

  class StatusManager {
    var runs: map<nat, RunStatus>
    var fifo: seq<nat>
    const capacity: nat
    var nextRunId: nat
    var listeners: seq<Listener>
    var sent: seq<seq<RunStatus>>

    ghost function Abs(): Store
      reads this
    {
      Store(runs, fifo, capacity, nextRunId, listeners, sent)
    }

    constructor (capacity: nat)
      ensures Abs() == Store(map[], [], capacity, 0, [], []) && Inv(Abs())
    {
      this.capacity := capacity;
      runs, fifo, nextRunId, listeners, sent := map[], [], 0, [], [];
    }

    method NewRun() returns (st: RunStatus)
      modifies this
      ensures Abs() == StatusSpec.NewRun(old(Abs())) && st == RunStatus(old(nextRunId), PENDING, "", "", "")
    {
      var id := nextRunId;
      nextRunId := nextRunId + 1;
      st := RunStatus(id, PENDING, "", "", "");
      runs := runs[id := st];
      fifo := fifo + [id];
      if capacity != 0 && |fifo| > capacity {
        runs := runs - {fifo[0]};
        fifo := fifo[1..];
      }
    }

    /** Writes a status and wakes the listeners it matches; done statuses stay. */
    method Update(newStatus: RunStatus) returns (known: bool)
      requires ListenersOk(Abs())
      modifies this
      ensures known == (newStatus.id in old(runs)) && runs.Keys == old(runs.Keys)
      ensures known && !IsDone(old(runs)[newStatus.id].state) ==>
        var was, now := old(runs)[newStatus.id], runs[newStatus.id];
        && now.id == newStatus.id && now.state == newStatus.state && now.note == newStatus.note
        && now.stdoutRef == (if newStatus.stdoutRef != "" then newStatus.stdoutRef else was.stdoutRef)
        && now.stderrRef == (if newStatus.stderrRef != "" then newStatus.stderrRef else was.stderrRef)
      ensures known && !IsDone(old(runs)[newStatus.id].state) ==>
        SentTo(old(listeners), old(sent), sent, runs[newStatus.id])
      ensures forall id <- runs :: id != newStatus.id || IsDone(old(runs)[id].state) ==> runs[id] == old(runs)[id]
      ensures Abs() == StatusSpec.Update(old(Abs()), newStatus)
    {
      known := newStatus.id in runs;
      if !known || IsDone(runs[newStatus.id].state) { return; }
      var st := newStatus;
      if st.stdoutRef == "" { st := st.(stdoutRef := runs[st.id].stdoutRef); }
      if st.stderrRef == "" { st := st.(stderrRef := runs[st.id].stderrRef); }
      assert st == Merge(runs[st.id], newStatus);
      runs := runs[st.id := st];
      Wake(st);
    }

    /** Puts a status on the channel of each listener it matches, which then listens no more. */
    method Wake(st: RunStatus)
      requires ChannelsOk(listeners, sent)
      modifies `listeners, `sent
      ensures SentTo(old(listeners), old(sent), sent, st)
      ensures listeners == StillWaiting(old(listeners), st) && sent == Served(old(listeners), old(sent), st)
    {
      var waiting := [];
      for i := 0 to |listeners|
        invariant listeners == old(listeners) && |sent| == |old(sent)|
        invariant waiting == StillWaiting(listeners[..i], st) && sent == Served(listeners[..i], old(sent), st)
      {
        assert listeners[..i + 1][..i] == listeners[..i];
        var l := listeners[i];
        if Matches(l.q, st) {
          sent := sent[l.ch := sent[l.ch] + [st]];
        } else {
          waiting := waiting + [l];
        }
      }
      assert listeners[..|listeners|] == listeners;
      AllServedOnce(old(listeners), old(sent), st);
      listeners := waiting;
    }

    method Erase(id: nat)
      modifies this
      ensures Abs() == StatusSpec.Erase(old(Abs()), id)
    {
      if id in runs && IsDone(runs[id].state) { runs := runs - {id}; }
    }

    /** The statuses of all runs in one of the states. */
    method AllMatching(q: Query) returns (current: seq<RunStatus>)
      requires q.allRuns
      ensures forall st :: st in current <==> st in Matching(Abs(), q)
    {
      current := [];
      var todo := runs.Keys;
      while todo != {}
        invariant todo <= runs.Keys
        invariant forall st :: st in current <==>
          exists id :: id in runs && id !in todo && Matches(q, runs[id]) && st == runs[id]
        decreases |todo|
      {
        var id :| id in todo;
        todo := todo - {id};
        if MaskMatches(q.states, runs[id].state) { current := current + [runs[id]]; }
      }
    }

    /** The statuses of the runs asked for, or the first of them that is not stored. */
    method SomeMatching(q: Query) returns (r: Result<seq<RunStatus>, nat>)
      requires RunsOk(Abs()) && !q.allRuns
      ensures r.Ok? <==> Knows(Abs(), q)
      ensures r.Ok? ==> forall st :: st in r.value <==> st in Matching(Abs(), q)
      ensures r.Err? ==> r.error in q.runs && r.error !in runs
    {
      var current := [];
      for i := 0 to |q.runs|
        invariant forall k :: 0 <= k < i ==> q.runs[k] in runs
        invariant forall st :: st in current <==>
          exists k :: 0 <= k < i && st == runs[q.runs[k]] && MaskMatches(q.states, st.state)
      {
        var id := q.runs[i];
        if id !in runs { return Err(id); }
        if MaskMatches(q.states, runs[id].state) { current := current + [runs[id]]; }
      }
      SameAnswers(q, current);
      return Ok(current);
    }

    lemma SameAnswers(q: Query, current: seq<RunStatus>)
      requires RunsOk(Abs()) && !q.allRuns && forall k :: 0 <= k < |q.runs| ==> q.runs[k] in runs
      requires forall st :: st in current <==>
        exists k :: 0 <= k < |q.runs| && st == runs[q.runs[k]] && MaskMatches(q.states, st.state)
      ensures forall st :: st in current <==> st in Matching(Abs(), q)
    {
      forall st | st in Matching(Abs(), q) ensures st in current {
        var id :| id in runs && Matches(q, runs[id]) && st == runs[id];
        var k :| 0 <= k < |q.runs| && q.runs[k] == id;
      }
      forall st | st in current ensures st in Matching(Abs(), q) {
        var k :| 0 <= k < |q.runs| && st == runs[q.runs[k]] && MaskMatches(q.states, st.state);
        assert q.runs[k] in q.runs;
      }
    }

    /** Answers a query as the plain filter over the stored statuses would, or lets the client wait for a match. */
    method QueryAndListen(q: Query, listen: bool) returns (a: Answer)
      requires Inv(Abs())
      modifies this
      ensures Inv(Abs())
      ensures a.UnknownRun? <==> !Knows(old(Abs()), q)
      ensures a.Now? ==> forall st :: st in a.statuses <==> st in Matching(old(Abs()), q)
      ensures a.Later? <==> listen && Knows(old(Abs()), q) && Matching(old(Abs()), q) == {}
      ensures Abs() == if a.Later? then Listen(old(Abs()), q) else old(Abs())
      ensures a.Later? ==> a.ch == |old(sent)|
    {
      var current;
      if q.allRuns {
        current := AllMatching(q);
      } else {
        var r := SomeMatching(q);
        if r.Err? { return UnknownRun(r.error); }
        current := r.value;
      }
      if |current| > 0 || !listen {
        if current != [] { assert current[0] in Matching(Abs(), q); }
        return Now(current);
      }
      assert Matching(Abs(), q) == {} by { assert forall st :: st in Matching(Abs(), q) ==> st in current; }
      ListenKeepsInv(Abs(), q);
      a := Later(|sent|);
      listeners, sent := listeners + [Listener(q, |sent|)], sent + [[]];
    }
  }
}
