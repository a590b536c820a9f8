/** How a task runner drives one attempt at a task on its worker (runAndWait and queryWithTimeout), against any
    worker and any timing of a kill request. */
module TaskRunner {
  import opened Wrappers
  import opened RunStatuses

  /** What a call to the worker's Run gives. */
  datatype RunReply = RunReply(st: RunStatus, failed: bool)

  /** What a call to the worker's Query gives. */
  datatype QueryReply = QueryReply(sts: seq<RunStatus>, failed: bool)

  /** The world around a task runner, call by call: the worker's answers, and whether a look at the abort channel
      finds a kill request, and one that ends the task. */
  datatype World = World(run: nat -> RunReply, query: (nat, bool) -> QueryReply, kill: nat -> Option<bool>)

  function QueryMask(includeRunning: bool): StateMask {
    if includeRunning then DONE_MASK | Bit(RUNNING) else DONE_MASK
  }

  /** A worker answers a query with a status the query asks for. */
  ghost predicate AnswersMatch(w: World) {
    forall k, r, i :: 0 <= i < |w.query(k, r).sts| && !w.query(k, r).failed ==>
      MaskMatches(QueryMask(r), w.query(k, r).sts[i].state)
  }

  /** What one attempt came to, and what it took. */
  datatype Attempt = Attempt(st: RunStatus, end: bool, failed: bool, runs: nat, runSleeps: nat, queries: nat,
                             querySleeps: nat, updates: nat, polls: nat, abortSent: bool)

  function AbortStatus(id: nat): RunStatus { RunStatus(id, ABORTED, "", "", "") }

  /** An attempt ends its task only on a kill request that says so, and then reports an abort. */
  ghost predicate EndsOnKill(w: World, a: Attempt) {
    a.end ==> a.st.state == ABORTED && !a.failed && exists k :: 0 <= k < a.polls && w.kill(k) == Some(true)
  }

  function CeilDiv(t: nat, i: nat): nat
    requires i > 0
  {
    (t + i - 1) / i
  }

  lemma MulMono(c: nat, n: nat, i: nat)
    requires c <= n
    ensures c * i <= n * i
  {
  }

  lemma CallsBounded(n: nat, i: nat, t: nat)
    requires i > 0 && n * i < t
    ensures n + 1 <= CeilDiv(t, i)
  {
    var c := CeilDiv(t, i);
    assert t <= c * i;
    if c <= n {
      MulMono(c, n, i);
      assert false;
    }
  }

  /** What sending the command to the worker takes: a failed call is repeated as long as the waits stay below the
      timeout. */
  ghost predicate StartBounded(a: Attempt, interval: nat, timeout: nat)
    requires interval > 0
  {
    && a.runs <= CeilDiv(timeout, interval) && a.runSleeps <= a.runs <= a.runSleeps + 1
    && a.runSleeps * interval < timeout
  }

  /** Only the last look at the abort channel may find a kill request. */
  ghost predicate KillStops(w: World, a: Attempt) {
    a.polls > 0 && forall k :: 0 <= k < a.polls - 1 ==> w.kill(k).None?
  }

  ghost predicate Killed(w: World, a: Attempt)
    requires a.polls > 0
  {
    w.kill(a.polls - 1).Some?
  }

  /** A killed attempt comes to an abort of the run, and ends the task if the request says so. */
  ghost predicate ComesToAbort(w: World, a: Attempt, id: nat)
    requires a.polls > 0 && Killed(w, a)
  {
    a.st == RunStatus(id, ABORTED, "", "", "") && a.end == w.kill(a.polls - 1).value && !a.failed
  }

  /** Each command sent was looked after twice, and all but the last failed; a request found before the next one was
      to be sent leaves none to abort, and one found after it has it aborted if it was received. */
  ghost predicate Sent(w: World, a: Attempt)
    requires a.polls > 0
  {
    && (forall k :: 0 <= k < a.runs - 1 ==> w.run(k).failed)
    && (a.polls == 2 * a.runs || (a.polls == 2 * a.runs + 1 && Killed(w, a)))
    && (a.polls == 2 * a.runs + 1 ==> !a.abortSent && (a.runs > 0 ==> w.run(a.runs - 1).failed))
    && (a.polls == 2 * a.runs && Killed(w, a) ==> (a.abortSent <==> !w.run(a.runs - 1).failed))
  }

  /** Sends the command until the worker takes it: unless a kill request comes in between, the outcome is the worker's
      reply to the last command sent. */
  method SendCommand(w: World, interval: nat, timeout: nat) returns (a: Attempt, started: bool)
    requires interval > 0 && timeout > 0
    ensures StartBounded(a, interval, timeout) && EndsOnKill(w, a)
    ensures a.queries == a.querySleeps == a.updates == 0
    ensures KillStops(w, a) && Sent(w, a)
    ensures Killed(w, a) ==> ComesToAbort(w, a, 0)
    ensures !Killed(w, a) ==> RunReply(a.st, a.failed) == w.run(a.runs - 1) && !a.end && !a.abortSent
    ensures started <==> !Killed(w, a) && !a.failed && !IsDone(a.st.state)
    ensures !started && a.failed ==> a.runs * interval >= timeout
  {
    started := false;
    a := Attempt(RunStatus(0, UNKNOWN, "", "", ""), false, false, 0, 0, 0, 0, 0, 0, false);
    var elapsed := 0;
    assert 0 * interval == 0;
    while true
      invariant !a.end && a.queries == a.querySleeps == a.updates == 0 && !a.abortSent && a.polls == 2 * a.runs
      invariant forall k :: 0 <= k < a.polls ==> w.kill(k).None?
      invariant forall k :: 0 <= k < a.runs ==> w.run(k).failed
      invariant a.runs == a.runSleeps && elapsed == a.runSleeps * interval && elapsed < timeout
      decreases timeout - elapsed
    {
      var kill := w.kill(a.polls);
      a := a.(polls := a.polls + 1);
      CallsBounded(a.runSleeps, interval, timeout);
      if kill.Some? {
        a := a.(st := AbortStatus(0), end := kill.value, failed := false);
        return;
      }
      var reply := w.run(a.runs);
      a := a.(runs := a.runs + 1, st := reply.st, failed := reply.failed);
      kill := w.kill(a.polls);
      a := a.(polls := a.polls + 1);
      if kill.Some? {
        a := a.(abortSent := !reply.failed, st := AbortStatus(0), end := kill.value, failed := false);
        return;
      }
      if reply.failed && elapsed + interval < timeout {
        assert (a.runSleeps + 1) * interval == elapsed + interval;
        a := a.(runSleeps := a.runSleeps + 1);
        elapsed := elapsed + interval;
        continue;
      } else if reply.failed || IsDone(reply.st.state) {
        assert a.runs * interval == elapsed + interval;
        return;
      }
      started := true;
      return;
    }
  }

  /** A worker's answer about a run is the one status in it, or else that the run takes too long. */
  ghost predicate IsAnswer(reply: QueryReply, id: nat, st: RunStatus) {
    && !reply.failed
    && (|reply.sts| == 1 ==> st == reply.sts[0])
    && (|reply.sts| != 1 ==> st == RunStatus(id, TIMEDOUT, "", "", ""))
  }

  /** What a query about a run comes to: an abort if a kill request is found, and else the worker's answer. */
  ghost predicate Tells(w: World, id: nat, k: nat, poll: nat, includeRunning: bool, st: RunStatus, end: bool,
                        failed: bool) {
    match w.kill(poll)
    case Some(ends) => st == RunStatus(id, ABORTED, "", "", "") && end == ends && !failed
    case None =>
      var reply := w.query(k, includeRunning);
      !end && if reply.failed then failed else !failed && IsAnswer(reply, id, st)
  }

  /** One query, bounded by the command's own timeout: a kill request overrides whatever the worker says. */
  method QueryOnce(w: World, id: nat, k: nat, poll: nat, includeRunning: bool)
    returns (st: RunStatus, end: bool, failed: bool)
    requires AnswersMatch(w)
    ensures w.kill(poll).Some? ==> st == RunStatus(id, ABORTED, "", "", "") && end == w.kill(poll).value && !failed
    ensures w.kill(poll).None? ==> !end && (failed <==> w.query(k, includeRunning).failed)
    ensures w.kill(poll).None? && !failed ==> var sts := w.query(k, includeRunning).sts;
      st == if |sts| == 1 then sts[0] else RunStatus(id, TIMEDOUT, "", "", "")
    ensures Tells(w, id, k, poll, includeRunning, st, end, failed)
    ensures failed ==> st == RunStatus(0, UNKNOWN, "", "", "")
    ensures !failed && !IsDone(st.state) ==> includeRunning && st.state == RUNNING
  {
    var reply := w.query(k, includeRunning);
    var kill := w.kill(poll);
    if kill.Some? { return AbortStatus(id), kill.value, false; }
    if reply.failed { return RunStatus(0, UNKNOWN, "", "", ""), false, true; }
    if |reply.sts| == 1 {
      st := reply.sts[0];
      AnswerIsWanted(includeRunning, st.state);
    } else {
      st := RunStatus(id, TIMEDOUT, "", "", "");
    }
    end, failed := false, false;
  }

  lemma AnswerIsWanted(includeRunning: bool, s: RunState)
    requires MaskMatches(QueryMask(includeRunning), s)
    ensures IsDone(s) || (includeRunning && s == RUNNING)
  {
    DoneMaskIsDone(s);
    if includeRunning { BitOr(DONE_MASK, s, RUNNING); }
  }

  /** The first `queries` queries after the run was started: each failed, but for query `n`, the last to ask for
      running ones too, which found the run running. */
  ghost predicate Waited(w: World, queries: nat, n: nat) {
    && (forall k: nat :: k < queries && k < n ==> w.query(k, true).failed)
    && (n < queries ==> FoundRunning(w.query(n, true)))
    && (forall k: nat :: n < k < queries ==> w.query(k, false).failed)
  }

  ghost predicate FoundRunning(reply: QueryReply) {
    !reply.failed && |reply.sts| == 1 && reply.sts[0].state == RUNNING
  }

  /** The worker took the last command sent, and no other. */
  ghost predicate Started(w: World, a: Attempt) {
    && a.runs > 0 && !w.run(a.runs - 1).failed && !IsDone(w.run(a.runs - 1).st.state)
    && (forall k :: 0 <= k < a.runs - 1 ==> w.run(k).failed)
  }

  /** Unless it was killed, an attempt comes to what the worker answered to the last query about the run that it
      started, and fails only if that query did. */
  ghost predicate Followed(w: World, a: Attempt, n: nat)
    requires a.polls > 0 && a.queries > 0 && Started(w, a)
  {
    && Waited(w, a.queries - 1, n) && a.updates == (if n < a.queries - 1 then 1 else 0)
    && Tells(w, w.run(a.runs - 1).st.id, a.queries - 1, a.polls - 1, a.updates == 0, a.st, a.end, a.failed)
  }

  lemma OneMoreSleep(sleeps: nat, interval: nat)
    ensures (sleeps + 1) * interval == sleeps * interval + interval
  {
  }

  lemma LastQuery(w: World, a: Attempt, n: nat, id: nat, includeRunning: bool)
    requires a.polls > 0 && a.queries > 0 && Started(w, a) && id == w.run(a.runs - 1).st.id
    requires Waited(w, a.queries - 1, n) && a.updates == if includeRunning then 0 else 1
    requires if includeRunning then n == a.queries - 1 else n < a.queries - 1
    requires Tells(w, id, a.queries - 1, a.polls - 1, includeRunning, a.st, a.end, a.failed)
    ensures Followed(w, a, n)
  {
    assert includeRunning == (a.updates == 0);
  }

  /** Waits for the run that was started: its end, or the first time the worker stays out of reach for too long. */
  method AwaitEnd(w: World, started: Attempt, interval: nat, timeout: nat) returns (a: Attempt)
    requires interval > 0 && timeout > 0 && AnswersMatch(w)
    requires Started(w, started) && started.st.id == w.run(started.runs - 1).st.id && !started.abortSent
    requires started.polls == 2 * started.runs && forall k :: 0 <= k < started.polls ==> w.kill(k).None?
    requires started.queries == started.querySleeps == started.updates == 0
    ensures a.runs == started.runs && a.runSleeps == started.runSleeps && a.queries > 0
    ensures a.querySleeps * interval < timeout && a.updates <= 1 && a.queries <= a.querySleeps + a.updates + 1
    ensures KillStops(w, a) && a.polls == 2 * a.runs + a.queries && exists n: nat :: Followed(w, a, n)
    ensures !a.failed ==> IsDone(a.st.state)
    ensures a.abortSent <==> a.st.state != COMPLETE
    ensures a.failed ==> (a.querySleeps + 1) * interval >= timeout
  {
    a := started;
    var id := a.st.id;
    var elapsed := 0;
    var includeRunning := true;
    ghost var n := 0;
    assert 0 * interval == 0;
    while true
      invariant a.runs == started.runs && a.runSleeps == started.runSleeps && !a.abortSent
      invariant elapsed == a.querySleeps * interval && elapsed < timeout
      invariant a.updates == (if includeRunning then 0 else 1) && a.queries == a.querySleeps + a.updates
      invariant a.polls == 2 * a.runs + a.queries && forall k :: 0 <= k < a.polls ==> w.kill(k).None?
      invariant Waited(w, a.queries, n) && if includeRunning then n == a.queries else n < a.queries
      decreases timeout - elapsed, includeRunning
    {
      var st, end, failed := QueryOnce(w, id, a.queries, a.polls, includeRunning);
      a := a.(st := st, end := end, failed := failed, queries := a.queries + 1, polls := a.polls + 1);
      OneMoreSleep(a.querySleeps, interval);
      if (failed && elapsed + interval >= timeout) || (!failed && IsDone(st.state)) {
        if st.state != COMPLETE { a := a.(abortSent := true); }
        LastQuery(w, a, n, id, includeRunning);
        break;
      } else if failed {
        a := a.(querySleeps := a.querySleeps + 1);
        elapsed := elapsed + interval;
        if includeRunning { n := n + 1; }
        continue;
      } else if includeRunning {
        a := a.(updates := a.updates + 1);
        includeRunning := false;
      }
    }
  }

  /** One attempt: it terminates whatever the worker does; the command is sent at most as often as the retry interval
      fits into the retry timeout, each phase waits less than that timeout in all, at most one answer is not final,
      and the outcome is final unless the worker could not be reached for too long. */
  method RunAndWait(w: World, interval: nat, timeout: nat) returns (a: Attempt)
    requires interval > 0 && timeout > 0 && AnswersMatch(w)
    ensures StartBounded(a, interval, timeout) && EndsOnKill(w, a)
    ensures a.querySleeps * interval < timeout && a.updates <= 1 && a.queries <= a.querySleeps + a.updates + 1
    ensures KillStops(w, a) && (!a.failed ==> IsDone(a.st.state))
    ensures a.queries == 0 && Killed(w, a) ==> Sent(w, a) && ComesToAbort(w, a, 0)
    ensures a.queries == 0 && !Killed(w, a) ==>
      Sent(w, a) && RunReply(a.st, a.failed) == w.run(a.runs - 1) && !a.end && !a.abortSent
    ensures a.queries > 0 ==> Started(w, a) && a.polls == 2 * a.runs + a.queries && exists n: nat :: Followed(w, a, n)
    ensures a.queries > 0 ==> (a.abortSent <==> a.st.state != COMPLETE)
    ensures a.failed ==> (if a.queries == 0 then a.runs else a.querySleeps + 1) * interval >= timeout
  {
    assert 0 * interval == 0;
    var started;
    a, started := SendCommand(w, interval, timeout);
    if !started { return; }
    a := AwaitEnd(w, a, interval, timeout);
    FollowedEndsOnKill(w, a);
  }

  lemma FollowedEndsOnKill(w: World, a: Attempt)
    requires a.polls > 0 && a.queries > 0 && Started(w, a) && exists n: nat :: Followed(w, a, n)
    ensures EndsOnKill(w, a)
  {
    var n: nat :| Followed(w, a, n);
    if a.end { assert w.kill(a.polls - 1) == Some(true); }
  }
}
