// Failures the environment may inject into database statements, commits and publishes, and messages that do not decode.
module Faults {

  // AckLost: the operation took effect but its caller saw an error.
  datatype Fault = NoFault | Rejected | AckLost

  datatype Option<T> = None | Some(value: T)

  // A message as received: it may not decode.
  datatype Incoming<T> = Garbled | Decoded(value: T)

  // Fault of the k-th fallible operation; operations past the end of the script succeed.
  function FaultAt(faults: seq<Fault>, k: nat): Fault {
    if k < |faults| then faults[k] else NoFault
  }

  predicate Succeeds(faults: seq<Fault>, k: nat) {
    FaultAt(faults, k) == NoFault
  }

  // A commit takes effect unless it is rejected or a statement before it failed.
  predicate Commits(aborted: bool, commit: Fault) {
    !aborted && commit != Rejected
  }

  // A transaction in progress: its view of the tables, whether a statement has failed, and how many fallible
  // operations it has performed.
  datatype Transaction<S> = Transaction(store: S, aborted: bool, used: nat)

  // A statement fails if the script says so or the tables do not allow it, and then aborts the transaction.
  function Statement<S>(tx: Transaction<S>, faults: seq<Fault>, allowed: bool): Transaction<S> {
    tx.(aborted := tx.aborted || !allowed || !Succeeds(faults, tx.used), used := tx.used + 1)
  }
}
