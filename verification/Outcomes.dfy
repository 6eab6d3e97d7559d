/** The ways a call to a store can end. */
module Outcomes {
  /** How a store call ends: applied and acknowledged, refused, or applied with
      the reply lost, which the caller sees as an error. */
  datatype Outcome = Done | Refused | Unacknowledged {
    predicate Applied() {
      !Refused?
    }

    predicate Errored() {
      !Done?
    }
  }
}
