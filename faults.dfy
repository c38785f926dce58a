/**
  The failures the services raise, and the two result shapes that carry them:
  `Outcome` for an operation that only changes state, `Result` for one that
  also returns a value. The generic null-or-value shape is `Wrappers.Option`.
 */
module Faults {
  /** The exceptions the services (and the document store beneath them) throw. */
  datatype Fault =
    | InvalidTrainScheduleId     // ArgumentException: schedule of a new reservation not found
    | InvalidReservationDate     // ArgumentException: outside the 30-day creation window
    | ReservationNotFound        // ArgumentException: update or delete of an unknown reservation
    | DateNotValidForUpdate      // InvalidOperationException: inside the 5-day lock window
    | DateNotValidForDelete      // InvalidOperationException: inside the 5-day lock window
    | TrainScheduleNotFound      // ArgumentException: delete of an unknown schedule
    | TrainScheduleHasReservations // InvalidOperationException: deletion guard
    | UnparsableDate             // FormatException or ArgumentNullException from DateTime.Parse in a query filter
    | MissingTrainSchedule       // NullReferenceException: enriching with a vanished schedule
    | DuplicateKey               // store: insert of an identifier that is already present
    | ImmutableId                // store: replacement that would change a document's identifier

  datatype Outcome = Done | Failed(fault: Fault)

  datatype Result<+T> = Ok(value: T) | Err(fault: Fault)
}
