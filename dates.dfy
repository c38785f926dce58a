/**
  The two date helpers of the reservation service.

  Instants are whole seconds since 1970-01-01T00:00:00Z. A stored date string
  is represented by what parsing it yields: `Some(instant)`, or `None` when the
  string is null or does not parse. The current moment is a parameter.
 */
module Dates {
  import opened Wrappers

  const DaySeconds: int := 86400

  /** C#'s `int.MaxValue`, the sentinel for an unparsable date. */
  const IntMaxValue: int := 0x7FFF_FFFF

  /** Instants that .NET's DateTimeOffset can represent: 0001-01-01 up to 9999-12-31T23:59:59. */
  const MinInstant: int := -62_135_596_800
  const MaxInstant: int := 253_402_300_799

  /**
    Whole days in a time span, truncated toward zero, as `TimeSpan.Days` and
    `(int)TimeSpan.TotalDays` give them. Dafny's `/` rounds down, so negative
    spans are handled separately.
   */
  function WholeDays(span: int): (d: int)
    ensures span >= 0 ==> 0 <= d && d * DaySeconds <= span < d * DaySeconds + DaySeconds
    ensures span < 0 ==> d <= 0 && d * DaySeconds - DaySeconds < span <= d * DaySeconds
  {
    if span >= 0 then span / DaySeconds else -((-span) / DaySeconds)
  }

  /** UTC midnight of the day that contains `now` (`DateTime.UtcNow.Date`). */
  function Midnight(now: int): (m: int)
    ensures m <= now < m + DaySeconds
    ensures m % DaySeconds == 0
  {
    now - now % DaySeconds
  }

  /**
    Lead time of a reservation: whole days from `now` to the reservation date,
    truncated toward zero, or `int.MaxValue` when the date does not parse.
   */
  function CalculateDaysDifference(reservationDate: Option<int>, now: int): (days: int)
    ensures reservationDate.None? ==> days == IntMaxValue
    ensures reservationDate.Some? ==>
      var span := reservationDate.value - now;
      (span >= 0 ==> 0 <= days && days * DaySeconds <= span < (days + 1) * DaySeconds) &&
      (span < 0 ==> days <= 0 && (days - 1) * DaySeconds < span <= days * DaySeconds)
  {
    match reservationDate
    case None => IntMaxValue
    case Some(t) => WholeDays(t - now)
  }

  /**
    The 30-day creation window: the date parses and lies at most 30 whole days
    (truncated toward zero) after today's UTC midnight. There is no lower bound.
   */
  function IsReservationDateValid(reservationDate: Option<int>, now: int): (valid: bool)
    ensures valid <==> reservationDate.Some? && reservationDate.value < Midnight(now) + 31 * DaySeconds
    ensures reservationDate.Some? && reservationDate.value <= now ==> valid
  {
    match reservationDate
    case None => false
    case Some(t) => WholeDays(t - Midnight(now)) <= 30
  }

  /** The 5-day lock window that gates updating and deleting a reservation. */
  predicate LeadTimeAllowsChange(reservationDate: Option<int>, now: int)
  {
    CalculateDaysDifference(reservationDate, now) >= 5
  }

  /**
    A change is allowed exactly when the date does not parse or lies at least
    five full days after `now`.
   */
  lemma LeadTimeGate(reservationDate: Option<int>, now: int)
    ensures LeadTimeAllowsChange(reservationDate, now) <==>
      reservationDate.None? || reservationDate.value >= now + 5 * DaySeconds
  {
  }

  /**
    For dates and clocks inside DateTimeOffset's range, the lead time fits in a
    32-bit int, so the source's `(int)` cast of `TotalDays` never overflows.
   */
  lemma DaysDifferenceFitsInt(reservationDate: Option<int>, now: int)
    requires reservationDate.Some? ==> MinInstant <= reservationDate.value <= MaxInstant
    requires MinInstant <= now <= MaxInstant
    ensures -IntMaxValue - 1 <= CalculateDaysDifference(reservationDate, now) <= IntMaxValue
  {
  }
}
