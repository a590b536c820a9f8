/** The states of a run, and queries for run statuses. */
module RunStatuses {
  datatype RunState = UNKNOWN | PENDING | PREPARING | RUNNING | COMPLETE | FAILED | ABORTED | TIMEDOUT | BADREQUEST

  predicate IsDone(s: RunState) { s != PENDING && s != PREPARING && s != RUNNING }

  /** A set of states, one bit each. */
  type StateMask = bv64

  function Bit(s: RunState): StateMask {
    match s
    case UNKNOWN => 1
    case PENDING => 2
    case PREPARING => 4
    case RUNNING => 8
    case COMPLETE => 16
    case FAILED => 32
    case ABORTED => 64
    case TIMEDOUT => 128
    case BADREQUEST => 256
  }

  const DONE_MASK: StateMask := 16 | 32 | 64 | 128 | 1 | 256

  const ALL_MASK: StateMask := 0xFFFF_FFFF_FFFF_FFFF

  function MaskForState(states: seq<RunState>): StateMask {
    if states == [] then 0 else MaskForState(states[..|states| - 1]) | Bit(states[|states| - 1])
  }

  predicate MaskMatches(m: StateMask, s: RunState) { Bit(s) & m != 0 }

  lemma AndOverOr(a: StateMask, b: StateMask, c: StateMask)
    ensures a & (b | c) == (a & b) | (a & c)
  {
  }

  lemma OrIsZero(a: StateMask, b: StateMask)
    ensures a | b == 0 <==> a == 0 && b == 0
  {
  }

  lemma BitsDiffer(s: RunState, t: RunState)
    ensures Bit(s) & Bit(t) != 0 <==> s == t
  {
  }

  lemma BitOr(m: StateMask, s: RunState, t: RunState)
    ensures MaskMatches(m | Bit(t), s) <==> MaskMatches(m, s) || s == t
  {
    AndOverOr(Bit(s), m, Bit(t));
    OrIsZero(Bit(s) & m, Bit(s) & Bit(t));
    BitsDiffer(s, t);
  }

  lemma ZeroMatchesNothing(s: RunState)
    ensures !MaskMatches(0, s)
  {
  }

  lemma OneMoreState(init: seq<RunState>, t: RunState, s: RunState)
    ensures MaskMatches(MaskForState(init + [t]), s) <==> MaskMatches(MaskForState(init), s) || s == t
  {
    assert (init + [t])[..|init|] == init;
    BitOr(MaskForState(init), s, t);
  }

  /** A mask made from states matches exactly these. */
  lemma {:induction false} MaskIsSet(states: seq<RunState>, s: RunState)
    ensures MaskMatches(MaskForState(states), s) <==> s in states
  {
    if states == [] {
      ZeroMatchesNothing(s);
    } else {
      var init, t := states[..|states| - 1], states[|states| - 1];
      assert states == init + [t];
      assert s in states <==> s in init || s == t;
      OneMoreState(init, t, s);
      MaskIsSet(init, s);
    }
  }

  lemma DoneMaskIsDone(s: RunState)
    ensures MaskMatches(DONE_MASK, s) <==> IsDone(s)
    ensures MaskMatches(ALL_MASK, s)
  {
  }

  /** `note` stands for the parts of a status that no rule here looks at. */
  datatype RunStatus = RunStatus(id: nat, state: RunState, stdoutRef: string, stderrRef: string, note: string)

  datatype Query = Query(runs: seq<nat>, allRuns: bool, states: StateMask)

  predicate Matches(q: Query, st: RunStatus) {
    MaskMatches(q.states, st.state) && (q.allRuns || st.id in q.runs)
  }
}
