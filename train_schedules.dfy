/**
  The schedule store and its deletion guard: a schedule whose back-reference
  list holds a reservation cannot be deleted.
 */
module TrainSchedules {
  import opened Wrappers
  import opened Records
  import opened Faults

  /** The deletion guard's test: the back-reference list exists and holds at least one entry. */
  predicate HasReservations(s: TrainSchedule)
    ensures HasReservations(s) <==> s.reservations.Some? && exists e :: e in s.reservations.value
  {
    match s.reservations
    case None => false
    case Some(list) =>
      assert |list| > 0 ==> list[0] in list;
      |list| > 0
  }

  /**
    Every schedule the deletion guard protects in `before` is still stored, and
    still protected, in `after`.
   */
  predicate GuardStaysArmed(before: map<string, TrainSchedule>, after: map<string, TrainSchedule>)
  {
    forall k | k in before && HasReservations(before[k]) :: k in after && HasReservations(after[k])
  }

  class TrainScheduleService {
    /** The schedule collection, keyed by document identifier. */
    var schedules: map<string, TrainSchedule>

    /** Every document is stored under its own identifier. */
    ghost predicate Valid()
      reads this
    {
      forall k | k in schedules :: schedules[k].id == k
    }

    constructor ()
      ensures Valid() && schedules == map[]
    {
      schedules := map[];
    }

    /** Inserts a schedule; the store refuses an identifier it already holds. */
    method CreateTrainSchedule(newSchedule: TrainSchedule) returns (r: Outcome)
      requires Valid()
      modifies this
      ensures Valid()
      ensures newSchedule.id in old(schedules) ==> r == Failed(DuplicateKey) && schedules == old(schedules)
      ensures newSchedule.id !in old(schedules) ==>
        r == Done && schedules == old(schedules)[newSchedule.id := newSchedule]
      ensures r.Done? ==> GetTrainSchedule(Some(newSchedule.id)) == Some(newSchedule)
    {
      if newSchedule.id in schedules {
        return Failed(DuplicateKey);
      }
      schedules := schedules[newSchedule.id := newSchedule];
      r := Done;
    }

    /** Every stored schedule, each exactly as it is stored under its own identifier. */
    function GetTrainSchedules(): (all: set<TrainSchedule>)
      requires Valid()
      reads this
      ensures forall k | k in schedules :: schedules[k] in all
      ensures forall s | s in all :: s.id in schedules && schedules[s.id] == s
    {
      schedules.Values
    }

    /** The first stored schedule whose identifier equals `id`, or null (`None`) when there is none. */
    function GetTrainSchedule(id: Option<string>): (found: Option<TrainSchedule>)
      requires Valid()
      reads this
      ensures found.Some? ==> found.value in schedules.Values && id == Some(found.value.id)
      ensures found.None? ==> forall s | s in schedules.Values :: id != Some(s.id)
    {
      if id.Some? && id.value in schedules then Some(schedules[id.value]) else None
    }

    /**
      Replaces the schedule stored under `id`. Nothing happens when no schedule
      has that identifier; the store refuses a replacement that carries another identifier.
     */
    method UpdateTrainSchedule(id: Option<string>, updated: TrainSchedule) returns (r: Outcome)
      requires Valid()
      modifies this
      ensures Valid()
      ensures (id.None? || id.value !in old(schedules)) ==> r == Done && schedules == old(schedules)
      ensures id.Some? && id.value in old(schedules) && updated.id != id.value ==>
        r == Failed(ImmutableId) && schedules == old(schedules)
      ensures id.Some? && id.value in old(schedules) && updated.id == id.value ==>
        r == Done && schedules == old(schedules)[id.value := updated]
    {
      var existing := GetTrainSchedule(id);
      if existing.None? {
        return Done;
      }
      if updated.id != existing.value.id {
        return Failed(ImmutableId);
      }
      schedules := schedules[existing.value.id := updated];
      r := Done;
    }

    /**
      Deletes the schedule stored under `id`, unless there is none or its
      back-reference list holds a reservation.
     */
    method DeleteTrainSchedule(id: Option<string>) returns (r: Outcome)
      requires Valid()
      modifies this
      ensures Valid()
      ensures (id.None? || id.value !in old(schedules)) ==>
        r == Failed(TrainScheduleNotFound) && schedules == old(schedules)
      ensures id.Some? && id.value in old(schedules) && HasReservations(old(schedules)[id.value]) ==>
        r == Failed(TrainScheduleHasReservations) && schedules == old(schedules)
      ensures id.Some? && id.value in old(schedules) && !HasReservations(old(schedules)[id.value]) ==>
        r == Done && schedules == old(schedules) - {id.value}
      ensures GuardStaysArmed(old(schedules), schedules)
    {
      var trainSchedule := GetTrainSchedule(id);
      if trainSchedule.None? {
        return Failed(TrainScheduleNotFound);
      }
      if HasReservations(trainSchedule.value) {
        return Failed(TrainScheduleHasReservations);
      }
      schedules := schedules - {trainSchedule.value.id};
      r := Done;
    }
  }
}
