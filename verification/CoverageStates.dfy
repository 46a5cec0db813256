/** The transition table of coverage evaluations, which the service never consults. */
module CoverageStates {

  datatype CoverageState = Queued | Running | Completed | Failed | Confirmed | Voided

  function Successors(s: CoverageState): set<CoverageState> {
    match s
    case Queued => {Running}
    case Running => {Completed, Failed}
    case Completed => {Confirmed, Voided}
    case Failed => {Voided}
    case Confirmed => {Voided}
    case Voided => {}
  }

  predicate CanTransition(from: CoverageState, to: CoverageState) { to in Successors(from) }

  /** A history that starts queued and follows the table. */
  predicate FollowsTable(h: History) {
    && h[0] == Queued
    && forall i | 0 < i < |h| :: CanTransition(h[i - 1], h[i])
  }

  // The states committed to one row, oldest first.
  type History = h: seq<CoverageState> | h != [] witness [Queued]

  function Last(h: History): CoverageState { h[|h| - 1] }

  // How far a history has come: its length is fixed by its last state, up to the two ways to void.
  lemma HistoryShape(h: History)
    requires FollowsTable(h)
    ensures |h| <= 5
    ensures Last(h) == Queued <==> |h| == 1
    ensures Last(h) == Running <==> |h| == 2
    ensures |h| >= 3 ==> h[2] == Completed || h[2] == Failed
    ensures Completed in h <==> |h| >= 3 && h[2] == Completed
    ensures Failed in h <==> |h| >= 3 && h[2] == Failed
    ensures Confirmed in h <==> |h| >= 4 && h[3] == Confirmed
    ensures Voided in h <==> Last(h) == Voided
  {
    assert h[0] == Queued;
    if |h| > 1 { assert CanTransition(h[0], h[1]); }
    if |h| > 2 { assert CanTransition(h[1], h[2]); }
    if |h| > 3 { assert CanTransition(h[2], h[3]); }
    if |h| > 4 { assert CanTransition(h[3], h[4]); }
    assert |h| > 5 ==> CanTransition(h[4], h[5]);
  }

  lemma HistoryExtended(h: History, to: CoverageState)
    requires FollowsTable(h) && CanTransition(Last(h), to)
    ensures FollowsTable(h + [to]) && Last(h + [to]) == to
  {
  }
}
