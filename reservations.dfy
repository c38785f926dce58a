/**
  The reservation lifecycle: creation inside the 30-day window with a
  back-reference on the schedule, update and deletion outside the 5-day lock
  window, and the queries that enrich reservations with a schedule summary.
 */
module Reservations {
  import opened Wrappers
  import opened Records
  import opened Faults
  import opened Dates
  import opened TrainSchedules

  /**
    The schedule after a reservation was booked on it: a null back-reference
    list first becomes empty, then the ID-only reservation is appended.
   */
  function WithBackReference(s: TrainSchedule, reservationId: string): TrainSchedule
  {
    var list := if s.reservations.None? then [] else s.reservations.value;
    s.(reservations := Some(list + [IdOnly(reservationId)]))
  }

  /**
    Booking keeps every earlier back-reference in order, adds the new one last,
    leaves the rest of the schedule as it was, and makes the deletion guard fire.
   */
  lemma BackReferenceLinks(s: TrainSchedule, reservationId: string)
    ensures var s' := WithBackReference(s, reservationId);
      && s'.reservations.Some?
      && var list' := s'.reservations.value;
      && |list'| == (if s.reservations.None? then 0 else |s.reservations.value|) + 1
      && (s.reservations.Some? ==> list'[..|list'| - 1] == s.reservations.value)
      && list'[|list'| - 1] == IdOnly(reservationId)
      && s'.(reservations := s.reservations) == s
      && HasReservations(s')
  {
  }

  /** The reservation's schedule reference resolves in the schedule store. */
  predicate ScheduleResolves(schedules: map<string, TrainSchedule>, res: Reservation)
  {
    res.scheduleId.Some? && res.scheduleId.value in schedules
  }

  /** A reservation joined with the summary of the schedule it references. */
  function DetailsOf(schedules: map<string, TrainSchedule>, res: Reservation): ReservationWithDetails
    requires ScheduleResolves(schedules, res)
  {
    ReservationWithDetails(res, Summary(schedules[res.scheduleId.value]))
  }

  /** `out` holds the identifiers in `keys`, each exactly once, and no others. */
  ghost predicate ListsEachOnce(out: seq<ReservationWithDetails>, keys: set<string>)
  {
    && (forall i, j | 0 <= i < j < |out| :: out[i].reservation.id != out[j].reservation.id)
    && (forall i | 0 <= i < |out| :: out[i].reservation.id in keys)
    && (forall k | k in keys :: k in ReservationIds(out))
  }

  /** A list that holds every identifier of `keys` exactly once has as many entries as `keys`. */
  lemma {:induction false} ListsEachOnceLength(out: seq<ReservationWithDetails>, keys: set<string>)
    requires ListsEachOnce(out, keys)
    ensures |out| == |keys|
  {
    if out == [] {
      assert forall k | k in keys :: false;
      assert keys == {};
    } else {
      var rest, last := out[..|out| - 1], out[|out| - 1];
      var id := last.reservation.id;
      assert ReservationIds(out) == ReservationIds(rest) + [id];
      forall k | k in keys - {id}
        ensures k in ReservationIds(rest)
      {
        assert k in ReservationIds(out);
      }
      forall i | 0 <= i < |rest|
        ensures rest[i].reservation.id in keys - {id}
      {
        assert out[i] == rest[i];
      }
      ListsEachOnceLength(rest, keys - {id});
    }
  }

  /**
    `out` lists each reservation stored under one of `keys` exactly once, each
    joined with its schedule's summary.
   */
  ghost predicate EnrichedExactly(out: seq<ReservationWithDetails>, keys: set<string>,
                                  reservations: map<string, Reservation>, schedules: map<string, TrainSchedule>)
  {
    && ListsEachOnce(out, keys)
    && forall i | 0 <= i < |out| ::
        && out[i].reservation.id in reservations
        && ScheduleResolves(schedules, reservations[out[i].reservation.id])
        && out[i] == DetailsOf(schedules, reservations[out[i].reservation.id])
  }

  /** Appending the next reservation's entry keeps `EnrichedExactly` for one more key. */
  lemma EnrichedStep(out: seq<ReservationWithDetails>, done: set<string>, k: string, entry: ReservationWithDetails,
                     reservations: map<string, Reservation>, schedules: map<string, TrainSchedule>)
    requires k in reservations && reservations[k].id == k && k !in done
    requires EnrichedExactly(out, done, reservations, schedules)
    requires ScheduleResolves(schedules, reservations[k]) && entry == DetailsOf(schedules, reservations[k])
    ensures EnrichedExactly(out + [entry], done + {k}, reservations, schedules)
  {
  }

  class ReservationService {
    /** The reservation collection, keyed by document identifier. */
    var reservations: map<string, Reservation>
    const scheduleService: TrainScheduleService

    /** Both stores keep every document under its own identifier. */
    ghost predicate Valid()
      reads this, scheduleService
    {
      && scheduleService.Valid()
      && forall k | k in reservations :: reservations[k].id == k
    }

    constructor (scheduleService: TrainScheduleService)
      requires scheduleService.Valid()
      ensures Valid() && reservations == map[] && this.scheduleService == scheduleService
    {
      reservations := map[];
      this.scheduleService := scheduleService;
    }

    /** The first stored reservation whose identifier equals `id`, or null (`None`). */
    function FindReservation(id: Option<string>): (found: Option<Reservation>)
      requires Valid()
      reads this, scheduleService
      ensures found.Some? ==> found.value in reservations.Values && id == Some(found.value.id)
      ensures found.None? ==> forall res | res in reservations.Values :: id != Some(res.id)
    {
      if id.Some? && id.value in reservations then Some(reservations[id.value]) else None
    }

    /**
      The enrichment loop shared by the list queries: joins every reservation
      stored under `keys` with its schedule's summary. The call fails when one of
      them references a schedule that no longer exists.
     */
    method EnrichAll(keys: set<string>) returns (r: Result<seq<ReservationWithDetails>>)
      requires Valid()
      requires keys <= reservations.Keys
      ensures r.Ok? <==> forall k | k in keys :: ScheduleResolves(scheduleService.schedules, reservations[k])
      ensures r.Ok? ==> EnrichedExactly(r.value, keys, reservations, scheduleService.schedules)
      ensures r.Err? ==> r.fault == MissingTrainSchedule
    {
      var remaining := keys;
      var out := [];
      ghost var done: set<string> := {};
      while remaining != {}
        invariant done + remaining == keys && done !! remaining
        invariant forall k | k in done :: ScheduleResolves(scheduleService.schedules, reservations[k])
        invariant EnrichedExactly(out, done, reservations, scheduleService.schedules)
        decreases remaining
      {
        var k :| k in remaining;
        var reservation := reservations[k];
        var trainScheduleDetails := scheduleService.GetTrainSchedule(reservation.scheduleId);
        if trainScheduleDetails.None? {
          return Err(MissingTrainSchedule);
        }
        var entry := ReservationWithDetails(reservation, Summary(trainScheduleDetails.value));
        EnrichedStep(out, done, k, entry, reservations, scheduleService.schedules);
        out := out + [entry];
        done := done + {k};
        remaining := remaining - {k};
      }
      assert done == keys;
      r := Ok(out);
    }

    /** Every reservation, each with its schedule's summary. */
    method GetReservationsWithDetails() returns (r: Result<seq<ReservationWithDetails>>)
      requires Valid()
      ensures r.Ok? <==>
        forall k | k in reservations :: ScheduleResolves(scheduleService.schedules, reservations[k])
      ensures r.Ok? ==> EnrichedExactly(r.value, reservations.Keys, reservations, scheduleService.schedules)
      ensures r.Ok? ==> |r.value| == |reservations|
      ensures r.Err? ==> r.fault == MissingTrainSchedule
    {
      r := EnrichAll(reservations.Keys);
      if r.Ok? {
        ListsEachOnceLength(r.value, reservations.Keys);
      }
    }

    /**
      The reservation with identifier `id` and its schedule's summary; null
      (`None`) when there is no such reservation.
     */
    function GetReservationWithDetails(id: string): (r: Result<Option<ReservationWithDetails>>)
      requires Valid()
      reads this, scheduleService
      ensures r == Ok(None) <==> forall res | res in reservations.Values :: res.id != id
      ensures r.Ok? && r.value.Some? ==>
        && r.value.value.reservation in reservations.Values
        && r.value.value.reservation.id == id
        && ScheduleResolves(scheduleService.schedules, r.value.value.reservation)
        && r.value.value == DetailsOf(scheduleService.schedules, r.value.value.reservation)
      ensures r.Err? ==>
        && r.fault == MissingTrainSchedule
        && id in reservations && !ScheduleResolves(scheduleService.schedules, reservations[id])
    {
      var reservation := FindReservation(Some(id));
      if reservation.None? then
        Ok(None)
      else
        var trainScheduleDetails := scheduleService.GetTrainSchedule(reservation.value.scheduleId);
        if trainScheduleDetails.None? then
          Err(MissingTrainSchedule)
        else
          Ok(Some(ReservationWithDetails(reservation.value, Summary(trainScheduleDetails.value))))
    }

    /** Identifiers of the reservations of one traveller. */
    function OfTraveller(travellerId: string): set<string>
      reads this
    {
      set k | k in reservations && reservations[k].travellerId == Some(travellerId)
    }

    /** A stored reservation is selected for a traveller exactly when it belongs to that traveller. */
    lemma TravellerSelection(travellerId: string)
      requires Valid()
      ensures forall res | res in reservations.Values ::
        res.id in OfTraveller(travellerId) <==> res.travellerId == Some(travellerId)
      ensures OfTraveller(travellerId) <= reservations.Keys
    {
    }

    /** The full reservation history of one traveller, each with its schedule's summary. */
    method GetReservationOfATraveller(travellerId: string) returns (r: Result<seq<ReservationWithDetails>>)
      requires Valid()
      ensures r.Ok? <==>
        forall k | k in OfTraveller(travellerId) :: ScheduleResolves(scheduleService.schedules, reservations[k])
      ensures r.Ok? ==> EnrichedExactly(r.value, OfTraveller(travellerId), reservations, scheduleService.schedules)
      ensures r.Ok? ==>
        forall i | 0 <= i < |r.value| :: r.value[i].reservation.travellerId == Some(travellerId)
      ensures r.Err? ==> r.fault == MissingTrainSchedule
    {
      r := EnrichAll(OfTraveller(travellerId));
    }

    /** Identifiers of one traveller's reservations whose date parses and lies strictly after `now`. */
    function UpcomingOfTraveller(travellerId: string, now: int): set<string>
      reads this
    {
      set k | k in OfTraveller(travellerId) && reservations[k].date.Some? && reservations[k].date.value > now
    }

    /**
      A stored reservation is selected as upcoming for a traveller exactly when
      it belongs to that traveller and its date parses and lies strictly after `now`.
     */
    lemma UpcomingSelection(travellerId: string, now: int)
      requires Valid()
      ensures forall res | res in reservations.Values ::
        res.id in UpcomingOfTraveller(travellerId, now) <==>
          res.travellerId == Some(travellerId) && res.date.Some? && res.date.value > now
      ensures UpcomingOfTraveller(travellerId, now) <= OfTraveller(travellerId)
    {
    }

    /**
      The upcoming reservations of one traveller: those whose date lies strictly
      after `now`, each with its schedule's summary. A date of one of the
      traveller's reservations that does not parse fails the whole query.
     */
    method GetReservationWithDetailsAheadOfToday(travellerId: string, now: int)
      returns (r: Result<seq<ReservationWithDetails>>)
      requires Valid()
      ensures (exists k | k in OfTraveller(travellerId) :: reservations[k].date.None?) <==>
        r == Err(UnparsableDate)
      ensures r != Err(UnparsableDate) ==>
        (r.Ok? <==> forall k | k in UpcomingOfTraveller(travellerId, now) ::
                      ScheduleResolves(scheduleService.schedules, reservations[k]))
      ensures r.Ok? ==>
        EnrichedExactly(r.value, UpcomingOfTraveller(travellerId, now), reservations, scheduleService.schedules)
      ensures r.Ok? ==> forall i | 0 <= i < |r.value| ::
        && r.value[i].reservation.travellerId == Some(travellerId)
        && r.value[i].reservation.date.Some?
        && r.value[i].reservation.date.value > now
      ensures r.Err? && r.fault != UnparsableDate ==> r.fault == MissingTrainSchedule
    {
      var mine := OfTraveller(travellerId);
      if exists k | k in mine :: reservations[k].date.None? {
        return Err(UnparsableDate);
      }
      var upcoming := set k | k in mine && reservations[k].date.value > now;
      r := EnrichAll(upcoming);
    }

    /**
      Books a reservation. Fails, changing nothing, when the schedule reference
      does not resolve (whatever the date), then when the date lies outside the
      30-day window, then when the identifier is already taken. Otherwise stores
      the reservation and appends its identifier to the schedule's back-references.
     */
    method CreateReservation(newReservation: Reservation, now: int) returns (r: Outcome)
      requires Valid()
      modifies this, scheduleService
      ensures Valid()
      ensures !ScheduleResolves(old(scheduleService.schedules), newReservation) ==>
        && r == Failed(InvalidTrainScheduleId)
        && reservations == old(reservations) && scheduleService.schedules == old(scheduleService.schedules)
      ensures (ScheduleResolves(old(scheduleService.schedules), newReservation)
        && !IsReservationDateValid(newReservation.date, now)) ==>
        && r == Failed(InvalidReservationDate)
        && reservations == old(reservations) && scheduleService.schedules == old(scheduleService.schedules)
      ensures (ScheduleResolves(old(scheduleService.schedules), newReservation)
        && IsReservationDateValid(newReservation.date, now)
        && newReservation.id in old(reservations)) ==>
        && r == Failed(DuplicateKey)
        && reservations == old(reservations) && scheduleService.schedules == old(scheduleService.schedules)
      ensures r.Done? <==>
        ScheduleResolves(old(scheduleService.schedules), newReservation)
        && IsReservationDateValid(newReservation.date, now)
        && newReservation.id !in old(reservations)
      ensures r.Done? ==>
        var sid := newReservation.scheduleId.value;
        && reservations == old(reservations)[newReservation.id := newReservation]
        && scheduleService.schedules ==
             old(scheduleService.schedules)[sid :=
               WithBackReference(old(scheduleService.schedules)[sid], newReservation.id)]
        && HasReservations(scheduleService.schedules[sid])
      ensures GuardStaysArmed(old(scheduleService.schedules), scheduleService.schedules)
    {
      var trainSchedule := scheduleService.GetTrainSchedule(newReservation.scheduleId);
      if trainSchedule.None? {
        return Failed(InvalidTrainScheduleId);
      }
      if !IsReservationDateValid(newReservation.date, now) {
        return Failed(InvalidReservationDate);
      }
      if newReservation.id in reservations {
        return Failed(DuplicateKey);
      }
      reservations := reservations[newReservation.id := newReservation];

      var schedule := trainSchedule.value;
      if schedule.reservations.None? {
        schedule := schedule.(reservations := Some([]));
      }
      schedule := schedule.(reservations := Some(schedule.reservations.value + [IdOnly(newReservation.id)]));
      assert schedule == WithBackReference(trainSchedule.value, newReservation.id);
      BackReferenceLinks(trainSchedule.value, newReservation.id);

      var updated := scheduleService.UpdateTrainSchedule(Some(schedule.id), schedule);
      assert updated == Done;
      r := Done;
    }

    /**
      Replaces the reservation stored under `id` by `updatedReservation` with its
      identifier forced to `id`. The 5-day lock window is judged on the date of
      the reservation as it is stored, not on the submitted date.
     */
    method UpdateReservation(id: Option<string>, updatedReservation: Reservation, now: int) returns (r: Outcome)
      requires Valid()
      modifies this
      ensures Valid()
      ensures scheduleService.schedules == old(scheduleService.schedules)
      ensures (id.None? || id.value !in old(reservations)) ==>
        r == Failed(ReservationNotFound) && reservations == old(reservations)
      ensures (id.Some? && id.value in old(reservations)
        && !LeadTimeAllowsChange(old(reservations)[id.value].date, now)) ==>
        r == Failed(DateNotValidForUpdate) && reservations == old(reservations)
      ensures (id.Some? && id.value in old(reservations)
        && LeadTimeAllowsChange(old(reservations)[id.value].date, now)) ==>
        r == Done && reservations == old(reservations)[id.value := updatedReservation.(id := id.value)]

      ensures GuardStaysArmed(old(scheduleService.schedules), scheduleService.schedules)
    {
      var existingReservation := FindReservation(id);
      if existingReservation.None? {
        return Failed(ReservationNotFound);
      }
      var daysDifference := CalculateDaysDifference(existingReservation.value.date, now);
      if daysDifference >= 5 {
        // The replacement always matches the document just found, so the
        // source's "no document modified" failure cannot arise here.
        var replacement := updatedReservation.(id := existingReservation.value.id);
        reservations := reservations[existingReservation.value.id := replacement];
        r := Done;
      } else {
        r := Failed(DateNotValidForUpdate);
      }
    }

    /**
      Removes the reservation stored under `id`, outside the 5-day lock window
      only. Schedule back-reference lists are left as they are.
     */
    method DeleteReservation(id: Option<string>, now: int) returns (r: Outcome)
      requires Valid()
      modifies this
      ensures Valid()
      ensures scheduleService.schedules == old(scheduleService.schedules)
      ensures (id.None? || id.value !in old(reservations)) ==>
        r == Failed(ReservationNotFound) && reservations == old(reservations)
      ensures (id.Some? && id.value in old(reservations)
        && !LeadTimeAllowsChange(old(reservations)[id.value].date, now)) ==>
        r == Failed(DateNotValidForDelete) && reservations == old(reservations)
      ensures (id.Some? && id.value in old(reservations)
        && LeadTimeAllowsChange(old(reservations)[id.value].date, now)) ==>
        r == Done && reservations == old(reservations) - {id.value}

      ensures GuardStaysArmed(old(scheduleService.schedules), scheduleService.schedules)
    {
      var existingReservation := FindReservation(id);
      if existingReservation.None? {
        return Failed(ReservationNotFound);
      }
      var daysDifference := CalculateDaysDifference(existingReservation.value.date, now);
      if daysDifference >= 5 {
        reservations := reservations - {existingReservation.value.id};
        r := Done;
      } else {
        r := Failed(DateNotValidForDelete);
      }
    }
  }
}
