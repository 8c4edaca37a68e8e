/**
 * The emergency record (Models/EmergencyEvent.swift): the three kinds of
 * emergency with their raw values, display names and icons, the record with
 * its default fields, and the keyed encoding of a coordinate.
 */
module Events {
  import opened Wrappers

  /** The record identifier; a fresh UUID in the app, supplied by the caller here. */
  type Uuid = nat

  /** Seconds since a fixed epoch (Date in the app). */
  type Timestamp = int

  // ---------------------------------------------------------------------------
  // EmergencyType
  // ---------------------------------------------------------------------------

  datatype EmergencyType = Sos | SafetyTimer | Manual

  /** The `String` raw value of each case. */
  function RawValue(t: EmergencyType): (r: string)
    ensures FromRawValue(r) == Some(t)
  {
    match t
    case Sos => "SOS"
    case SafetyTimer => "Safety Timer"
    case Manual => "Manual"
  }

  /** The failable `init?(rawValue:)`: None for any string that is not a raw value. */
  function FromRawValue(s: string): (r: Option<EmergencyType>)
    ensures r.None? <==> s != "SOS" && s != "Safety Timer" && s != "Manual"
  {
    if s == "SOS" then Some(Sos)
    else if s == "Safety Timer" then Some(SafetyTimer)
    else if s == "Manual" then Some(Manual)
    else None
  }

  /** Decoding a raw value gives back exactly the case whose raw value it is. */
  lemma FromRawValueInverse(s: string, t: EmergencyType)
    ensures FromRawValue(s) == Some(t) <==> RawValue(t) == s
  {
  }

  /** Distinct cases have distinct raw values. */
  lemma RawValueInjective(a: EmergencyType, b: EmergencyType)
    ensures RawValue(a) == RawValue(b) ==> a == b
  {
  }

  /** `CaseIterable.allCases`, in declaration order. */
  function AllCases(): (r: seq<EmergencyType>)
    ensures |r| == 3
    ensures forall i, j :: 0 <= i < j < |r| ==> r[i] != r[j]
  {
    [Sos, SafetyTimer, Manual]
  }

  /** Every case is listed in `allCases`. */
  lemma AllCasesComplete(t: EmergencyType)
    ensures t in AllCases()
  {
    match t
    case Sos => assert AllCases()[0] == t;
    case SafetyTimer => assert AllCases()[1] == t;
    case Manual => assert AllCases()[2] == t;
  }

  /** The user-facing name of each case. */
  function DisplayName(t: EmergencyType): (r: string)
    ensures |r| > 0
  {
    match t
    case Sos => "SOS Сигнал"
    case SafetyTimer => "Таймер безопасности"
    case Manual => "Ручная активация"
  }

  /** The SF Symbols name shown for each case. */
  function Icon(t: EmergencyType): (r: string)
    ensures |r| > 0
  {
    match t
    case Sos => "exclamationmark.triangle.fill"
    case SafetyTimer => "timer"
    case Manual => "hand.raised.fill"
  }

  /** The three display names are pairwise different. */
  lemma DisplayNameInjective(a: EmergencyType, b: EmergencyType)
    ensures DisplayName(a) == DisplayName(b) ==> a == b
  {
  }

  /** The three icon names are pairwise different. */
  lemma IconInjective(a: EmergencyType, b: EmergencyType)
    ensures Icon(a) == Icon(b) ==> a == b
  {
  }

  // ---------------------------------------------------------------------------
  // Coordinates and their keyed encoding
  // ---------------------------------------------------------------------------

  /** CLLocationCoordinate2D, with degrees as reals. */
  datatype Coordinate = Coordinate(latitude: real, longitude: real)

  /** The raw values of the two coding keys. */
  const LatitudeKey: string := "latitude"
  const LongitudeKey: string := "longitude"

  /** A keyed container: coding-key raw value to the stored number. */
  type KeyedContainer = map<string, real>

  /** What `container.decode(_:forKey:)` throws when the key is absent. */
  datatype DecodingError = KeyNotFound(key: string)

  /** `encode(to:)`: writes the latitude and then the longitude under their keys. */
  function Encode(c: Coordinate): (m: KeyedContainer)
    ensures m.Keys == {LatitudeKey, LongitudeKey}
    ensures m[LatitudeKey] == c.latitude && m[LongitudeKey] == c.longitude
    ensures Decode(m) == Success(c)
  {
    map[LatitudeKey := c.latitude, LongitudeKey := c.longitude]
  }

  /**
   * `init(from:)`: reads the latitude and then the longitude; the first key
   * that is missing is the error thrown. Other keys are ignored.
   */
  function Decode(m: KeyedContainer): (r: Result<Coordinate, DecodingError>)
    ensures r.Success? <==> LatitudeKey in m && LongitudeKey in m
    ensures r.Success? ==> r.value.latitude == m[LatitudeKey] && r.value.longitude == m[LongitudeKey]
    ensures LatitudeKey !in m ==> r == Failure(KeyNotFound(LatitudeKey))
    ensures LatitudeKey in m && LongitudeKey !in m ==> r == Failure(KeyNotFound(LongitudeKey))
  {
    if LatitudeKey !in m then Failure(KeyNotFound(LatitudeKey))
    else if LongitudeKey !in m then Failure(KeyNotFound(LongitudeKey))
    else Success(Coordinate(m[LatitudeKey], m[LongitudeKey]))
  }

  /** Decoding then re-encoding a container keeps exactly its two coordinate entries. */
  lemma EncodeDecodeRestricts(m: KeyedContainer)
    requires Decode(m).Success?
    ensures Encode(Decode(m).value) == m - (m.Keys - {LatitudeKey, LongitudeKey})
  {
  }

  // ---------------------------------------------------------------------------
  // EmergencyEvent
  // ---------------------------------------------------------------------------

  /**
   * One emergency episode. `kind` is the source's `type` field. `duration`
   * holds the planned interval while a safety timer runs and the elapsed
   * interval once the record is finalised.
   */
  datatype Event = Event(
    id: Uuid,
    kind: EmergencyType,
    timestamp: Timestamp,
    location: Option<Coordinate>,
    duration: Option<int>,
    isActive: bool,
    contactsNotified: seq<string>,
    mediaRecorded: bool,
    notes: Option<string>)

  /** The memberwise initialiser, with the declared defaults for the other fields. */
  function NewEvent(id: Uuid, kind: EmergencyType, timestamp: Timestamp,
                    location: Option<Coordinate>, duration: Option<int>, isActive: bool): Event
  {
    Event(id, kind, timestamp, location, duration, isActive, [], false, None)
  }

  /** A freshly constructed event carries the given fields and the declared defaults. */
  lemma NewEventFields(id: Uuid, kind: EmergencyType, timestamp: Timestamp,
                       location: Option<Coordinate>, duration: Option<int>, isActive: bool)
    ensures var e := NewEvent(id, kind, timestamp, location, duration, isActive);
      && e.id == id && e.kind == kind && e.timestamp == timestamp
      && e.location == location && e.duration == duration && e.isActive == isActive
      && e.contactsNotified == [] && !e.mediaRecorded && e.notes.None?
  {
  }
}
