/**
 * The class EmergencyService of Services/EmergencyService.swift. Its methods
 * update the three published properties and the timer field in place; each
 * is proved to move the state exactly as the matching function of module
 * Lifecycle says, and to keep the object invariant Lifecycle.Inv.
 *
 * Notifying contacts and starting or stopping media recording only log a
 * message in the app and change no state, so they do not appear here.
 */
module Service {
  import opened Wrappers
  import opened Events
  import Lifecycle

  class EmergencyService {
    var currentEmergency: Option<Event>
    var isEmergencyActive: bool
    var emergencyHistory: seq<Event>
    /** `emergencyTimer`: None when nil, otherwise the fire time of the held timer. */
    var emergencyTimer: Option<Timestamp>

    /** The abstract state the fields stand for. */
    function State(): Lifecycle.Engine
      reads this
    {
      Lifecycle.Engine(currentEmergency, isEmergencyActive, emergencyHistory, emergencyTimer)
    }

    ghost predicate Valid()
      reads this
    {
      Lifecycle.Inv(State())
    }

    constructor ()
      ensures Valid()
      ensures State() == Lifecycle.Initial()
    {
      currentEmergency := None;
      isEmergencyActive := false;
      emergencyHistory := [];
      emergencyTimer := None;
    }

    method ActivateSOS(id: Uuid, now: Timestamp, location: Option<Coordinate>)
      requires Valid()
      modifies this
      ensures Valid()
      ensures State() == Lifecycle.ActivateSOS(old(State()), id, now, location)
    {
      var emergency := NewEvent(id, Sos, now, location, None, true);
      StartEmergency(emergency);
    }

    method ActivateSafetyTimer(id: Uuid, now: Timestamp, location: Option<Coordinate>, duration: int)
      requires Valid()
      modifies this
      ensures Valid()
      ensures State() == Lifecycle.ActivateSafetyTimer(old(State()), id, now, location, duration)
    {
      var emergency := NewEvent(id, SafetyTimer, now, location, Some(duration), true);
      StartEmergency(emergency);
      // A newly scheduled timer replaces the one the field held.
      emergencyTimer := Some(now + duration);
    }

    method ActivateManualEmergency(id: Uuid, now: Timestamp, location: Option<Coordinate>)
      requires Valid()
      modifies this
      ensures Valid()
      ensures State() == Lifecycle.ActivateManualEmergency(old(State()), id, now, location)
    {
      var emergency := NewEvent(id, Manual, now, location, None, true);
      StartEmergency(emergency);
    }

    /** Runs unconditionally: an emergency already in progress is simply replaced as current. */
    method StartEmergency(emergency: Event)
      requires emergency.isActive
      modifies this
      ensures Valid()
      ensures State() == Lifecycle.Start(old(State()), emergency)
      ensures emergencyHistory[..|old(emergencyHistory)|] == old(emergencyHistory)
    {
      currentEmergency := Some(emergency);
      isEmergencyActive := true;
      emergencyHistory := emergencyHistory + [emergency];
    }

    method DeactivateEmergency(now: Timestamp)
      requires Valid()
      modifies this
      ensures Valid()
      ensures State() == Lifecycle.Deactivate(old(State()), now)
      ensures old(currentEmergency).None? ==> unchanged(this)
    {
      if currentEmergency.None? {
        return;
      }
      var emergency := currentEmergency.value;
      emergencyTimer := None;
      var updatedEmergency := Lifecycle.Finalized(emergency, now);
      var index := Lifecycle.FirstIndexOf(emergencyHistory, emergency.id);
      if index.Some? {
        emergencyHistory := emergencyHistory[index.value := updatedEmergency];
      }
      currentEmergency := None;
      isEmergencyActive := false;
    }

    /** Called by the environment when a scheduled safety timer fires. */
    method HandleSafetyTimerExpired(id: Uuid, now: Timestamp, location: Option<Coordinate>)
      requires Valid()
      modifies this
      ensures Valid()
      ensures State() == Lifecycle.TimerExpired(old(State()), id, now, location)
    {
      if isEmergencyActive && currentEmergency.Some? && currentEmergency.value.kind == SafetyTimer {
        ActivateSOS(id, now, location);
      }
    }

    /** The history, newest first; the service itself is left as it was. */
    method GetEmergencyHistory() returns (r: seq<Event>)
      ensures multiset(r) == multiset(emergencyHistory)
      ensures Lifecycle.NewestFirst(r)
    {
      r := Lifecycle.SortByTimestamp(emergencyHistory);
    }

    method ClearEmergencyHistory()
      requires Valid()
      modifies this
      ensures Valid()
      ensures State() == Lifecycle.ClearHistory(old(State()))
    {
      emergencyHistory := [];
    }
  }
}
