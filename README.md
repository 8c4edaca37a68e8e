# SafeZone emergency engine, modelled in Dafny

This project models the emergency lifecycle of the SafeZone personal-safety app:
the `EmergencyService` class and the `EmergencyEvent` record it manages.

The service has three published properties:

- `currentEmergency`, an optional event;
- `isEmergencyActive`, a flag;
- `emergencyHistory`, an array.

It also holds a one-shot `emergencyTimer`. The operations are:

- three activations (SOS, safety timer, manual), all going through `startEmergency`;
- deactivation, which finalises the current record in the history;
- the safety-timer expiry handler, which escalates to SOS;
- reading the history newest first;
- clearing the history.

Files:

- `wrappers.dfy` (module `Wrappers`): `Option` stands for Swift optionals, `Result` for throwing calls.
- `events.dfy` (module `Events`): `EmergencyType` with its raw values, display names, icons and `allCases`. It also holds the `Event` record with its default fields and the keyed encode/decode pair for coordinates.
- `lifecycle.dfy` (module `Lifecycle`): the service's state as a value `Engine`, with one function per operation. The lemmas here state what the operations promise alone and in sequence.
- `service.dfy` (module `Service`): the class `EmergencyService`. Its methods update the fields in place. Each method is proved to produce exactly the state the matching `Lifecycle` function gives, and to keep the object invariant: the flag is true exactly when a current record exists, and that record is active.

The clock (`Date()`), the new record's `UUID()` and the location fix are parameters of the activation methods: `now`, `id` and `location`. Times are integers. The timer field is represented by the time at which the held timer fires. The firing itself is the method `HandleSafetyTimerExpired`, which the environment calls.

The model follows the code as written, including these behaviours of it:

- An activation while an emergency is active is not rejected. The new record replaces the current one, and both stay in the history.
- Escalation does not finalise the safety-timer record before the SOS activation. Two records marked active then sit in the history, and deactivation later finalises only the SOS record (`Lifecycle.EscalationKeepsTimerRecord`, `Lifecycle.DeactivateAfterEscalation`). So "at most one active record" does not hold.
- `duration` is a single field. It holds the planned interval of a safety timer and, after deactivation, the elapsed interval of any kind of record. So "planned duration present iff safety timer" does not hold either.
- The history sort promises no tie order. The model proves only the permutation and the order, and shows that these fix every position's timestamp (`Lifecycle.NewestFirstDeterminesTimestamps`).
- Record identifiers are not assumed unique. Deactivation overwrites the first history entry carrying the current record's id, or nothing when no entry has it, for example after the history was cleared.

## Model

| member | source | states |
|---|---|---|
| `Events.RawValue` | Models/EmergencyEvent.swift:15-18 | decoding the raw value of a case with `init?(rawValue:)` yields that same case |
| `Events.FromRawValue` | Models/EmergencyEvent.swift:15-18 | `init?(rawValue:)` fails exactly for strings other than "SOS", "Safety Timer" and "Manual" |
| `Events.FromRawValueInverse` | Models/EmergencyEvent.swift:15-18 | decoding a string gives a case exactly when the string is that case's raw value |
| `Events.RawValueInjective` | Models/EmergencyEvent.swift:15-18 | distinct cases have distinct raw values |
| `Events.AllCases` | Models/EmergencyEvent.swift:15-18 | `allCases` lists three pairwise distinct cases |
| `Events.AllCasesComplete` | Models/EmergencyEvent.swift:15-18 | every case appears in `allCases`, so there are exactly three |
| `Events.DisplayName` | Models/EmergencyEvent.swift:20-26 | the display name is defined and non-empty for every case |
| `Events.DisplayNameInjective` | Models/EmergencyEvent.swift:20-26 | the three display names are pairwise different |
| `Events.Icon` | Models/EmergencyEvent.swift:28-34 | the icon name is defined and non-empty for every case |
| `Events.IconInjective` | Models/EmergencyEvent.swift:28-34 | the three icon names are pairwise different |
| `Events.Encode` | Models/EmergencyEvent.swift:47-51 | encoding writes exactly the keys "latitude" and "longitude" with the coordinate's values, and decoding the result gives back the same coordinate |
| `Events.Decode` | Models/EmergencyEvent.swift:40-45 | decoding succeeds exactly when both keys are present, reading their values; a missing latitude is reported first, then a missing longitude |
| `Events.EncodeDecodeRestricts` | Models/EmergencyEvent.swift:40-51 | re-encoding a decoded container reproduces its two coordinate entries and drops any other key |
| `Events.NewEventFields` | Models/EmergencyEvent.swift:4-13 | a new event carries the given fields, no notified contacts, `mediaRecorded == false` and no notes |
| `Lifecycle.ActivateSOS` | Services/EmergencyService.swift:19-28 | SOS activation makes current a new active `.sos` record with no duration, the given time and location; that record is appended to an otherwise unchanged history; the flag is set |
| `Lifecycle.ActivateSafetyTimer` | Services/EmergencyService.swift:30-45 | like SOS but the record is `.safetyTimer` with `duration` set to the planned interval, and a timer firing at `now + duration` is held |
| `Lifecycle.ActivateManualEmergency` | Services/EmergencyService.swift:47-56 | like SOS but the record is `.manual` |
| `Lifecycle.Finalized` | Services/EmergencyService.swift:83-85 | the finalised copy is inactive, has `duration == now - timestamp`, and agrees with the original in every other field, the id included |
| `Lifecycle.FirstIndexOf` | Services/EmergencyService.swift:88 | the found index holds the id and no earlier entry does; none is found only when no entry holds the id |
| `Lifecycle.Deactivate` | Services/EmergencyService.swift:72-94 | with no current record nothing changes; otherwise the service is idle with no timer, the history keeps its length and ids, only the first entry with the current id changes, and it becomes the finalised current record |
| `Lifecycle.TimerExpired` | Services/EmergencyService.swift:96-101 | expiry changes nothing unless a safety-timer record is current and the flag is set; then a new active SOS record becomes current and is appended |
| `Lifecycle.InsertByTimestamp` | Services/EmergencyService.swift:125 | inserting into a newest-first history adds exactly the record and keeps it newest first |
| `Lifecycle.SortByTimestamp` | Services/EmergencyService.swift:124-126 | the sorted history is a permutation of the history with non-increasing timestamps |
| `Lifecycle.SortedHistoryIsPermutation` | Services/EmergencyService.swift:124-126 | the sorted history has the same length and the same records as the history |
| `Lifecycle.NewestFirstDeterminesTimestamps` | Services/EmergencyService.swift:124-126 | any two newest-first permutations of one history have the same timestamp at every position; only ties may be ordered differently |
| `Lifecycle.ClearHistory` | Services/EmergencyService.swift:128-130 | clearing empties the history and keeps the current record, the flag and the timer |
| `Lifecycle.InvPreserved` | Services/EmergencyService.swift:58-94 | "flag set iff a current record exists, and that record is active" holds initially and after every operation |
| `Lifecycle.ExpiryAfterDeactivateIsNoop` | Services/EmergencyService.swift:72-101 | a timer firing after deactivation changes nothing |
| `Lifecycle.ExpiryEscalatesAtMostOnce` | Services/EmergencyService.swift:96-101 | a second expiry right after the first one changes nothing, so escalation does not repeat |
| `Lifecycle.EscalationKeepsTimerRecord` | Services/EmergencyService.swift:58-101 | after a safety timer and its expiry, the history holds the old entries, the unchanged and still active safety-timer record, and the new active SOS record, which is current |
| `Lifecycle.DeactivateAfterEscalation` | Services/EmergencyService.swift:72-101 | with fresh ids, deactivating after escalation finalises the SOS record only; the safety-timer record stays active with its planned duration |
| `Lifecycle.CancelledTimerScenario` | Services/EmergencyService.swift:30-101 | a 5-second timer started at 0 and stopped at 2 leaves one inactive record with duration 2, and its expiry at 5 adds nothing |
| `Service.EmergencyService.constructor` | Services/EmergencyService.swift:5-15 | a new service is idle with an empty history and no timer |
| `Service.EmergencyService.ActivateSOS` | Services/EmergencyService.swift:19-28 | the fields move as `Lifecycle.ActivateSOS` says and the invariant is kept |
| `Service.EmergencyService.ActivateSafetyTimer` | Services/EmergencyService.swift:30-45 | the fields move as `Lifecycle.ActivateSafetyTimer` says and the invariant is kept |
| `Service.EmergencyService.ActivateManualEmergency` | Services/EmergencyService.swift:47-56 | the fields move as `Lifecycle.ActivateManualEmergency` says and the invariant is kept |
| `Service.EmergencyService.StartEmergency` | Services/EmergencyService.swift:58-70 | the record becomes current, the flag is set, and the record is appended with all earlier entries left as they were |
| `Service.EmergencyService.DeactivateEmergency` | Services/EmergencyService.swift:72-94 | the fields move as `Lifecycle.Deactivate` says, and nothing changes at all when no record is current |
| `Service.EmergencyService.HandleSafetyTimerExpired` | Services/EmergencyService.swift:96-101 | the fields move as `Lifecycle.TimerExpired` says and the invariant is kept |
| `Service.EmergencyService.GetEmergencyHistory` | Services/EmergencyService.swift:124-126 | returns a permutation of the history with non-increasing timestamps and changes no field |
| `Service.EmergencyService.ClearEmergencyHistory` | Services/EmergencyService.swift:128-130 | the fields move as `Lifecycle.ClearHistory` says and the invariant is kept |

## Left out

- Notifying trusted contacts and starting or stopping media recording only log a message and change no state, so the model has no members for them.
- The run-loop `Timer` is not modelled. Expiry is a method the environment may call at any time, and its guard depends only on the service state, as in the code. The model does not track which timers are still scheduled: a timer replaced by a second `activateSafetyTimer` still fires in the app, and the model covers that only because expiry may be called at any time.
- `Date()` and `TimeInterval` are floating point; the model uses integer times and durations. The sign of `now - timestamp` is not constrained.
- Identifiers come from `UUID()`; the model takes them as parameters and does not assume they are fresh.
- The location manager is not part of this model; its fix is an optional parameter.
- Coordinates are reals, not doubles. The keyed container is a map from key name to number. Decoding a value of the wrong type cannot be expressed, so only the missing-key error is modelled.
- The synthesised `Codable` conformance of `EmergencyEvent` itself is not modelled, only the coordinate pair.
- Publishing changes to observers (`@Published`, `ObservableObject`) and the weak capture of the service in the timer closure are not modelled.
- The tie order of the library sort is not modelled; the history read relies only on the permutation and ordering properties.
