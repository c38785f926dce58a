/**
  Clients of the two services that walk one schedule through bookings, the
  lock window and the deletion guard, using only the services' contracts.
 */
module LifecycleExample {
  import opened Wrappers
  import opened Records
  import opened Faults
  import opened Dates
  import opened TrainSchedules
  import opened Reservations

  const S1 := TrainSchedule("S1", None, Some("08:00"), Some("12:00"), Some("T-100"),
                            Some("Kandy"), Some("Colombo"), Some(1500), None)

  /** Fresh stores holding schedule S1 and no reservations. */
  method SetUp() returns (service: ReservationService)
    ensures fresh(service) && fresh(service.scheduleService) && service.Valid()
    ensures service.reservations == map[] && service.scheduleService.schedules == map["S1" := S1]
  {
    var scheduleService := new TrainScheduleService();
    var added := scheduleService.CreateTrainSchedule(S1);
    service := new ReservationService(scheduleService);
  }

  /** A booking ten days ahead links S1 to it; it can be cancelled, but S1 stays guarded. */
  method BookThenCancel(now: int)
  {
    var service := SetUp();
    var tenDays := Reservation("R1", Some("P1"), Some("S1"), Some(now + 10 * DaySeconds));
    var booked := service.CreateReservation(tenDays, now);
    assert booked == Done;
    assert service.scheduleService.schedules["S1"] == WithBackReference(S1, "R1");
    assert [] + [IdOnly("R1")] == [IdOnly("R1")];
    assert service.scheduleService.schedules["S1"].reservations == Some([IdOnly("R1")]);

    var guarded := service.scheduleService.DeleteTrainSchedule(Some("S1"));
    assert guarded == Failed(TrainScheduleHasReservations);

    LeadTimeGate(tenDays.date, now);
    var cancelled := service.DeleteReservation(Some("R1"), now);
    assert cancelled == Done && service.reservations == map[];

    guarded := service.scheduleService.DeleteTrainSchedule(Some("S1"));
    assert guarded == Failed(TrainScheduleHasReservations);
  }

  /**
    The guard survives every reservation operation, but not a replacement of
    the schedule document itself: putting back S1 with a null list disarms it.
   */
  method ReplacingScheduleDisarmsGuard(now: int)
  {
    var service := SetUp();
    var tenDays := Reservation("R1", Some("P1"), Some("S1"), Some(now + 10 * DaySeconds));
    var booked := service.CreateReservation(tenDays, now);
    assert booked == Done;
    var replaced := service.scheduleService.UpdateTrainSchedule(Some("S1"), S1);
    assert replaced == Done && service.scheduleService.schedules["S1"] == S1;
    var deleted := service.scheduleService.DeleteTrainSchedule(Some("S1"));
    assert deleted == Done && service.scheduleService.schedules == map[];
  }

  /** A booking three days ahead can be made, but is locked against cancellation. */
  method LockedNearTravelDate(now: int)
  {
    var service := SetUp();
    var threeDays := Reservation("R2", Some("P1"), Some("S1"), Some(now + 3 * DaySeconds));
    var booked := service.CreateReservation(threeDays, now);
    assert booked == Done;
    LeadTimeGate(threeDays.date, now);
    var cancelled := service.DeleteReservation(Some("R2"), now);
    assert cancelled == Failed(DateNotValidForDelete);
  }

  /** Forty days ahead lies outside the creation window; an unknown schedule is reported first. */
  method CreationChecksInOrder(now: int)
  {
    var service := SetUp();
    var fortyDays := Reservation("R3", Some("P1"), Some("S1"), Some(now + 40 * DaySeconds));
    var booked := service.CreateReservation(fortyDays, now);
    assert booked == Failed(InvalidReservationDate);
    booked := service.CreateReservation(fortyDays.(scheduleId := Some("S9")), now);
    assert booked == Failed(InvalidTrainScheduleId);
  }
}
