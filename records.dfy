/**
  The documents kept in the two stores and the summary a reservation is
  enriched with.
 */
module Records {
  import opened Wrappers

  /**
    A reservation document. `date` is the parse result of the stored
    `reservationDate` string (see module Dates). Properties that the C# class
    leaves null are `None`.
   */
  datatype Reservation = Reservation(
    id: string,
    travellerId: Option<string>,
    scheduleId: Option<string>,
    date: Option<int>)

  /** The ID-only reservation that is appended to a schedule's back-reference list. */
  function IdOnly(id: string): Reservation
  {
    Reservation(id, None, None, None)
  }

  /** A train schedule document, property for property. */
  datatype TrainSchedule = TrainSchedule(
    id: string,
    date: Option<string>,
    dept: Option<string>,
    arr: Option<string>,
    trainId: Option<string>,
    destinationPoint: Option<string>,
    departurePoint: Option<string>,
    ticketPrice: Option<int>,
    reservations: Option<seq<Reservation>>)

  /**
    The part of a schedule shown beside a reservation. The source builds it as a
    `TrainSchedule` with only these five properties set and the others null.
   */
  datatype ScheduleDetails = ScheduleDetails(
    dept: Option<string>,
    arr: Option<string>,
    trainId: Option<string>,
    destinationPoint: Option<string>,
    departurePoint: Option<string>)

  /** `ReservationWithTravellerDetails`: a reservation joined with its schedule's summary. */
  datatype ReservationWithDetails = ReservationWithDetails(
    reservation: Reservation,
    details: ScheduleDetails)

  /** The identifiers of enriched reservations, in result order. */
  function ReservationIds(out: seq<ReservationWithDetails>): (ids: seq<string>)
    ensures |ids| == |out|
    ensures forall i | 0 <= i < |out| :: ids[i] == out[i].reservation.id
  {
    if out == [] then [] else ReservationIds(out[..|out| - 1]) + [out[|out| - 1].reservation.id]
  }

  function Summary(s: TrainSchedule): ScheduleDetails
  {
    ScheduleDetails(s.dept, s.arr, s.trainId, s.destinationPoint, s.departurePoint)
  }

  /** Two schedules have the same summary exactly when they agree on the five copied properties. */
  lemma SummaryCopiesFiveFields(s1: TrainSchedule, s2: TrainSchedule)
    ensures Summary(s1) == Summary(s2) <==>
      s1.dept == s2.dept && s1.arr == s2.arr && s1.trainId == s2.trainId &&
      s1.destinationPoint == s2.destinationPoint && s1.departurePoint == s2.departurePoint
  {
  }
}
