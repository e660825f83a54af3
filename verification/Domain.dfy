/** The vocabulary shared by every part of the model: identifiers, the domain
    enumerations, and a failure-compatible result type. */
module Domain {

  /** Artifact identifiers. The modelled code only compares identifiers for
      equality and sorts them, so an ordered type is all that is needed. */
  type Id = int

  datatype Option<+T> = None | Some(value: T)

  datatype Status = Active | Quarantined | Revoked | Superseded | Archived

  datatype Evidence = Recorded | Inferred | ReplayConfirmed | Rejected | Unresolved

  datatype Policy = Forensic | Balanced | Strict

  datatype Severity = Low | Medium | High | Critical

  datatype Verdict =
    | Confirmed
    | VerdictRejected
    | UnresolvedFidelity
    | UnresolvedRepetitions
    | UnresolvedBudget
    | UnresolvedRunnerFailure
    | UnresolvedMissingInputs

  /** Why an operation stopped early. `Crash` is the death of the process between
      two commits; the others are the exceptions the code raises. */
  datatype Fault = Crash | NotFound | InvalidTransition | NoRoots

  datatype Result<+T> = Ok(value: T) | Err(fault: Fault) {
    predicate IsFailure() {
      Err?
    }

    function PropagateFailure<U>(): Result<U>
      requires Err?
    {
      Err(fault)
    }

    function Extract(): T
      requires Ok?
    {
      value
    }

    predicate Crashed() {
      this == Err(Crash)
    }
  }
}
