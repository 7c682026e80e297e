/** Enumerations shared by the order, execution and proposal services (`bot/domain/enums.py`). */
module Domain {

  datatype Side = Yes | No

  datatype BotMode = Paper | ManualOnly | SemiAuto | LiveSmall | LiveFull

  datatype IntentStatus =
    | Created
    | Prepared
    | Blocked
    | Superseded
    | SubmissionAccepted
    | SubmissionRejected
    | SubmissionDisabled
    | SimulatedRejected
    | SimulatedSubmitted
    | SimulatedPartiallyFilled
    | SimulatedFilled
    | SimulatedExpired
    | SimulatedCancelled
  {
    predicate Active() { Created? || Prepared? }

    predicate Terminal() {
      || Blocked? || Superseded? || SubmissionAccepted? || SubmissionRejected? || SubmissionDisabled?
      || SimulatedRejected? || SimulatedSubmitted? || SimulatedPartiallyFilled? || SimulatedFilled?
      || SimulatedExpired? || SimulatedCancelled?
    }

    /** The states a paper execution leaves behind. */
    predicate Simulated() {
      || SimulatedRejected? || SimulatedSubmitted? || SimulatedPartiallyFilled? || SimulatedFilled?
      || SimulatedExpired? || SimulatedCancelled?
    }
  }

  datatype ProposalStatus =
    | Detected
    | Scored
    | PolicyRejected
    | PendingManualConfirmation
    | Approved
    | Submitted
    | PartiallyFilled
    | Filled
    | Cancelled
    | ExitPendingConfirmation
    | Closed
    | PausedBySafety
}
