/** The persisted vocabulary: phases, substates and where an issue stands. */
module State {

  type Issue = string

  datatype Phase =
    | Graphed | Implementing | QaGate | AdversaryReview | Converged | Landing
    | Merged | PrOpen | AwaitingHumanMerge | AwaitingInboundApproval | OrchestratorError

  predicate IsDrivable(p: Phase) {
    p.Graphed? || p.Implementing? || p.QaGate?
  }

  predicate IsTerminal(p: Phase) {
    p.Merged? || p.PrOpen? || p.AwaitingHumanMerge? || p.AwaitingInboundApproval? || p.OrchestratorError?
  }

  datatype Substate =
    | QaRunning | QaPassedPendingTransition
    | RebaseStarted | RebaseDoneBookmarkPending | Merging | BookmarkMovedComplete
    | PushStarted | PushDonePrPending | PrCreated
    | AnswerPending | AnswerSent | AnswerUnreachable

  predicate IsAnswer(s: Substate) {
    s.AnswerPending? || s.AnswerSent? || s.AnswerUnreachable?
  }

  /** The nullable `phase_substate` column; a newer binary may have written a token this one
      does not know. */
  datatype Column = Null | Token(sub: Substate) | Foreign(raw: string)

  /** The two columns `set_phase` writes together. */
  datatype Place = Place(phase: Phase, column: Column)

  const IMPLEMENTING := Place(Implementing, Null)
  const MERGED := Place(Merged, Null)
  const PR_OPEN := Place(PrOpen, Null)
  const ERROR := Place(OrchestratorError, Null)
  const AWAITING_HUMAN := Place(AwaitingHumanMerge, Null)
  const CONVERGED := Place(Converged, Null)

  function LandingAt(s: Substate): Place {
    Place(Landing, Token(s))
  }
}
