/** Definitions shared by the whole of corrupttest (the crate root). */
module Common {

  /** The corruptions the target's failpoint knows, in the order every workload tries them. */
  const AvailableInjections: seq<string> :=
    ["extraIndex", "missingIndex", "corruptIndexKey", "corruptIndexValue"]

  /** How one (table, workload, injection) trial ended. */
  datatype Effectiveness =
    | Success     // the error text names an inconsistency or a failed assertion
    | OtherError  // some other error was reported
    | Failure     // no error at write time, but `admin check table` found the corruption
    | Consistent  // no error, and `admin check table` found nothing either
}
