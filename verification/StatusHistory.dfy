/** What the status table holds and sends, over every run, told from the calls alone: which runs are stored, and whose
    words their statuses are. */
module StatusHistory {
  import opened RunStatuses
  import opened StatusSpec

  lemma RunStep(ss: seq<Store>, es: seq<Event>, k: nat)
    requires IsRun(ss, es) && k < |es|
    ensures Enabled(ss[k], es[k]) && ss[k + 1] == Next(ss[k], es[k])
  {
  }

  // -------------------------------------------------------------------------------------------
  // Whose words a stored status is.

  /** A status is written that finds its run stored and not done. */
  ghost predicate TakesEffect(s: Store, e: Event, id: nat) {
    e.Write? && e.st.id == id && id in s.runs && !IsDone(s.runs[id].state)
  }

  /** At step `j` a status of run `id` was written, to effect. */
  ghost predicate WrittenAt(ss: seq<Store>, es: seq<Event>, j: nat, id: nat)
    requires j < |es| < |ss|
  {
    TakesEffect(ss[j], es[j], id)
  }

  ghost predicate NoneSince(ss: seq<Store>, es: seq<Event>, j: int, k: nat, id: nat)
    requires k <= |es| < |ss|
  {
    forall i :: 0 <= i < k && j < i ==> !WrittenAt(ss, es, i, id)
  }

  /** The status says what the last write to effect before step `k` said. */
  ghost predicate SaidLast(ss: seq<Store>, es: seq<Event>, k: nat, st: RunStatus)
    requires k <= |es| < |ss|
  {
    exists j :: 0 <= j < k && WrittenAt(ss, es, j, st.id) && NoneSince(ss, es, j, k, st.id) &&
      st.state == es[j].st.state && st.note == es[j].st.note
  }

  ghost predicate IsFirst(st: RunStatus) { st == RunStatus(st.id, PENDING, "", "", "") }

  /** What a write to effect stores: what it says, but for output references it does not give. */
  ghost predicate Says(was: RunStatus, st: RunStatus, now: RunStatus) {
    && now.id == st.id && now.state == st.state && now.note == st.note
    && now.stdoutRef == (if st.stdoutRef != "" then st.stdoutRef else was.stdoutRef)
    && now.stderrRef == (if st.stderrRef != "" then st.stderrRef else was.stderrRef)
  }

  /** A write changes exactly its own run, and only if that is stored and not done. */
  lemma WriteSays(s: Store, st: RunStatus)
    ensures var s' := Next(s, Write(st));
      && s'.runs.Keys == s.runs.Keys && s'.nextRunId == s.nextRunId && s'.fifo == s.fifo
      && (forall id <- s.runs :: id != st.id ==> s'.runs[id] == s.runs[id])
      && if TakesEffect(s, Write(st), st.id) then Says(s.runs[st.id], st, s'.runs[st.id]) else s' == s
  {
  }

  /** No other call changes a stored status. */
  lemma OthersKeep(s: Store, e: Event, id: nat)
    requires RunsOk(s) && !TakesEffect(s, e, id) && id in Next(s, e).runs
    ensures if id in s.runs then Next(s, e).runs[id] == s.runs[id]
            else e.New? && id == s.nextRunId && IsFirst(Next(s, e).runs[id])
  {
    if e.Write? { WriteSays(s, e.st); }
  }

  lemma {:induction false} IdsOnlyGrow(ss: seq<Store>, es: seq<Event>, j: nat, k: nat)
    requires IsRun(ss, es) && j <= k <= |es|
    ensures ss[j].nextRunId <= ss[k].nextRunId
    decreases k
  {
    if j < k {
      IdsOnlyGrow(ss, es, j, k - 1);
      RunStep(ss, es, k - 1);
    }
  }

  /** A run that is yet to be added was never written. */
  lemma UnknownUnwritten(ss: seq<Store>, es: seq<Event>, k: nat, id: nat)
    requires IsRun(ss, es) && k <= |es| && id >= ss[k].nextRunId
    ensures NoneSince(ss, es, -1, k, id)
  {
    forall i | 0 <= i < k ensures !WrittenAt(ss, es, i, id) {
      IdsOnlyGrow(ss, es, i, k);
      RunKeepsInv(ss, es, i);
    }
  }

  /** What is stored of a run at step `k`, told from the writes before. */
  ghost predicate Told(ss: seq<Store>, es: seq<Event>, k: nat, st: RunStatus)
    requires k <= |es| < |ss|
  {
    (IsFirst(st) && NoneSince(ss, es, -1, k, st.id)) || SaidLast(ss, es, k, st)
  }

  lemma ToldStays(ss: seq<Store>, es: seq<Event>, k: nat, st: RunStatus)
    requires k < |es| < |ss| && Told(ss, es, k, st) && !WrittenAt(ss, es, k, st.id)
    ensures Told(ss, es, k + 1, st)
  {
    if SaidLast(ss, es, k, st) {
      var j :| 0 <= j < k && WrittenAt(ss, es, j, st.id) && NoneSince(ss, es, j, k, st.id) &&
        st.state == es[j].st.state && st.note == es[j].st.note;
      assert NoneSince(ss, es, j, k + 1, st.id);
    }
  }

  lemma WrittenIsTold(ss: seq<Store>, es: seq<Event>, k: nat, st: RunStatus)
    requires k < |es| < |ss| && WrittenAt(ss, es, k, st.id)
    requires st.state == es[k].st.state && st.note == es[k].st.note
    ensures Told(ss, es, k + 1, st)
  {
    assert NoneSince(ss, es, k, k + 1, st.id);
  }

  lemma ToldOn(ss: seq<Store>, es: seq<Event>, k: nat, id: nat)
    requires IsRun(ss, es) && k < |es| && id in ss[k + 1].runs
    requires id in ss[k].runs ==> ss[k].runs[id].id == id && Told(ss, es, k, ss[k].runs[id])
    ensures ss[k + 1].runs[id].id == id && Told(ss, es, k + 1, ss[k + 1].runs[id])
  {
    RunStep(ss, es, k);
    RunKeepsInv(ss, es, k);
    var s, e := ss[k], es[k];
    if TakesEffect(s, e, id) {
      WriteSays(s, e.st);
      WrittenIsTold(ss, es, k, ss[k + 1].runs[id]);
    } else {
      OthersKeep(s, e, id);
      if id in s.runs {
        ToldStays(ss, es, k, ss[k + 1].runs[id]);
      } else {
        UnknownUnwritten(ss, es, k, id);
      }
    }
  }

  /** In every run, a stored status is the PENDING one its run was added with, if no write to it took effect since, and
      otherwise says what the last write that took effect said. */
  lemma {:induction false} StoredIsReported(ss: seq<Store>, es: seq<Event>, k: nat, id: nat)
    requires IsRun(ss, es) && k <= |es| && id in ss[k].runs
    ensures ss[k].runs[id].id == id && Told(ss, es, k, ss[k].runs[id])
  {
    if k > 0 {
      if id in ss[k - 1].runs { StoredIsReported(ss, es, k - 1, id); }
      ToldOn(ss, es, k - 1, id);
    }
  }

  /** Once a run has an output reference it keeps one, for as long as it is stored. */
  lemma {:induction false} ReferencesStay(ss: seq<Store>, es: seq<Event>, j: nat, k: nat, id: nat)
    requires IsRun(ss, es) && j <= k <= |es| && id in ss[j].runs && id in ss[k].runs
    ensures KeepsReferences(ss[j].runs[id], ss[k].runs[id])
    decreases k
  {
    if j < k {
      StoredMeanwhile(ss, es, j, k - 1, id);
      ReferencesStayOn(ss, es, k - 1, id);
      ReferencesStay(ss, es, j, k - 1, id);
    }
  }

  ghost predicate KeepsReferences(a: RunStatus, b: RunStatus) {
    (a.stdoutRef != "" ==> b.stdoutRef != "") && (a.stderrRef != "" ==> b.stderrRef != "")
  }

  lemma ReferencesStayOn(ss: seq<Store>, es: seq<Event>, k: nat, id: nat)
    requires IsRun(ss, es) && k < |es| && id in ss[k].runs && id in ss[k + 1].runs
    ensures KeepsReferences(ss[k].runs[id], ss[k + 1].runs[id])
  {
    RunKeepsInv(ss, es, k);
    RunStep(ss, es, k);
    StepKeepsReferences(ss[k], es[k], id);
  }

  /** A run that was stored and is stored was stored in between. */
  lemma StoredMeanwhile(ss: seq<Store>, es: seq<Event>, j: nat, k: nat, id: nat)
    requires IsRun(ss, es) && j <= k < |es| && id in ss[j].runs && id in ss[k + 1].runs
    ensures id in ss[k].runs
  {
    RunStep(ss, es, k);
    RunKeepsInv(ss, es, j);
    RunKeepsInv(ss, es, k);
    IdsOnlyGrow(ss, es, j, k);
    if !TakesEffect(ss[k], es[k], id) { OthersKeep(ss[k], es[k], id); }
  }

  lemma StepKeepsReferences(s: Store, e: Event, id: nat)
    requires RunsOk(s) && id in s.runs && id in Next(s, e).runs
    ensures KeepsReferences(s.runs[id], Next(s, e).runs[id])
  {
    if TakesEffect(s, e, id) { WriteSays(s, e.st); } else { OthersKeep(s, e, id); }
  }

  // -------------------------------------------------------------------------------------------
  // Whose words are sent.

  /** A write before step `k` that took effect said this. */
  ghost predicate WasWritten(ss: seq<Store>, es: seq<Event>, k: nat, st: RunStatus)
    requires k <= |es| < |ss|
  {
    exists j :: 0 <= j < k && WrittenAt(ss, es, j, st.id) && st.state == es[j].st.state && st.note == es[j].st.note
  }

  /** Only a write to effect puts anything on a channel, and that is what it stores. */
  lemma OnlyWritesSend(s: Store, e: Event, c: nat)
    requires Inv(s) && c < |Next(s, e).sent|
    ensures var s' := Next(s, e);
      if c >= |s.sent| then s'.sent[c] == []
      else s'.sent[c] == s.sent[c] ||
           (e.Write? && TakesEffect(s, e, e.st.id) && s'.sent[c] == s.sent[c] + [s'.runs[e.st.id]])
  {
    if e.Write? && TakesEffect(s, e, e.st.id) && c < |s.sent| {
      ServedOnce(s.listeners, s.sent, Next(s, e).runs[e.st.id], c);
      assert s.sent[c] + [] == s.sent[c];
    }
  }

  /** In every run, whatever is sent on a channel says what some write that took effect said. */
  lemma {:induction false} SentIsReported(ss: seq<Store>, es: seq<Event>, k: nat, c: nat)
    requires IsRun(ss, es) && k <= |es| && c < |ss[k].sent| && ss[k].sent[c] != []
    ensures WasWritten(ss, es, k, ss[k].sent[c][0])
  {
    RunStep(ss, es, k - 1);
    RunKeepsInv(ss, es, k - 1);
    RunKeepsInv(ss, es, k);
    var s, e := ss[k - 1], es[k - 1];
    OnlyWritesSend(s, e, c);
    if ss[k].sent[c] == s.sent[c] {
      SentIsReported(ss, es, k - 1, c);
    } else {
      WriteSays(s, e.st);
      assert s.sent[c] == [] && ss[k].sent[c][0] == ss[k].runs[e.st.id];
      assert WrittenAt(ss, es, k - 1, e.st.id);
    }
  }

  // -------------------------------------------------------------------------------------------
  // Which runs are stored.

  /** The history lists the newest runs, as many as fit, oldest first. */
  ghost predicate Newest(s: Store) {
    && |s.fifo| == (if s.capacity == 0 || s.nextRunId < s.capacity then s.nextRunId else s.capacity)
    && forall i :: 0 <= i < |s.fifo| ==> s.fifo[i] == s.nextRunId - |s.fifo| + i
  }

  /** The run is recent enough to be remembered. */
  ghost predicate Recent(s: Store, id: nat) {
    id < s.nextRunId && (s.capacity == 0 || id + s.capacity >= s.nextRunId)
  }

  lemma NextKeepsNewest(s: Store, e: Event)
    requires Newest(s)
    ensures Newest(Next(s, e)) && Next(s, e).capacity == s.capacity
  {
  }

  /** Erasing takes a run that is stored and done. */
  ghost predicate Erases(s: Store, e: Event, id: nat) { e == Drop(id) && id in s.runs && IsDone(s.runs[id].state) }

  lemma StaysStored(s: Store, e: Event, id: nat)
    requires Newest(s) && (id in s.runs ==> Recent(s, id))
    ensures var s' := Next(s, e);
      id in s'.runs <==> (id in s.runs || (e.New? && id == s.nextRunId)) && Recent(s', id) && !Erases(s, e, id)
  {
    if e.Write? { WriteSays(s, e.st); }
  }

  ghost predicate ErasedBefore(ss: seq<Store>, es: seq<Event>, k: nat, id: nat)
    requires k <= |es| < |ss|
  {
    exists j :: 0 <= j < k && Erases(ss[j], es[j], id)
  }

  lemma ErasedStep(ss: seq<Store>, es: seq<Event>, k: nat, id: nat)
    requires k < |es| < |ss|
    ensures ErasedBefore(ss, es, k + 1, id) <==> ErasedBefore(ss, es, k, id) || Erases(ss[k], es[k], id)
  {
  }

  lemma UnknownNotErased(ss: seq<Store>, es: seq<Event>, k: nat, id: nat)
    requires IsRun(ss, es) && k <= |es| && id >= ss[k].nextRunId
    ensures !ErasedBefore(ss, es, k, id)
  {
    forall i | 0 <= i < k ensures !Erases(ss[i], es[i], id) {
      IdsOnlyGrow(ss, es, i, k);
      RunKeepsInv(ss, es, i);
    }
  }

  lemma {:induction false} HistoryIsNewest(ss: seq<Store>, es: seq<Event>, k: nat)
    requires IsRun(ss, es) && k <= |es|
    ensures Newest(ss[k]) && ss[k].capacity == ss[0].capacity
  {
    if k > 0 {
      HistoryIsNewest(ss, es, k - 1);
      RunStep(ss, es, k - 1);
      NextKeepsNewest(ss[k - 1], es[k - 1]);
    }
  }

  lemma RecentStep(s: Store, e: Event, id: nat)
    requires Newest(s)
    ensures Recent(Next(s, e), id) ==> Recent(s, id) || (e.New? && id == s.nextRunId)
    ensures e.New? || Next(s, e).nextRunId == s.nextRunId
  {
  }

  /** In every run, a run is stored exactly when it was added, is among the newest that the history holds, and was not
      erased when it was done. */
  lemma {:induction false} StoredIffRecent(ss: seq<Store>, es: seq<Event>, k: nat, id: nat)
    requires IsRun(ss, es) && k <= |es|
    ensures id in ss[k].runs <==> Recent(ss[k], id) && !ErasedBefore(ss, es, k, id)
  {
    if k > 0 {
      StoredIffRecent(ss, es, k - 1, id);
      HistoryIsNewest(ss, es, k - 1);
      RunStep(ss, es, k - 1);
      StaysStored(ss[k - 1], es[k - 1], id);
      RecentStep(ss[k - 1], es[k - 1], id);
      ErasedStep(ss, es, k - 1, id);
      if id == ss[k - 1].nextRunId { UnknownNotErased(ss, es, k - 1, id); }
    }
  }
}
