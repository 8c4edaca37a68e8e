/**
 * The emergency lifecycle of Services/EmergencyService.swift as a pure state
 * machine. Each operation of the service is a function from the old state to
 * the new one; the class in module Service is proved to follow these
 * functions, and the lemmas here state what the operations promise together.
 *
 * The clock (`Date()`), the new record's UUID and the location fix are
 * parameters `now`, `id` and `location`. The one-shot timer is represented by
 * the time at which the timer object the service holds will fire; its firing
 * is the separate operation TimerExpired.
 */
module Lifecycle {
  import opened Wrappers
  import opened Events

  /**
   * The service's published state: `currentEmergency`, `isEmergencyActive`,
   * `emergencyHistory`, and `emergencyTimer` (None when the field is nil,
   * otherwise the fire time of the timer it holds).
   */
  datatype Engine = Engine(
    current: Option<Event>,
    active: bool,
    history: seq<Event>,
    timer: Option<Timestamp>)

  /** The state of a freshly initialised service. */
  function Initial(): Engine
  {
    Engine(None, false, [], None)
  }

  /** The flag mirrors the presence of a current record, and that record is active. */
  predicate Inv(s: Engine)
  {
    && s.active == s.current.Some?
    && (s.current.Some? ==> s.current.value.isActive)
  }

  // ---------------------------------------------------------------------------
  // Activation
  // ---------------------------------------------------------------------------

  /** `startEmergency`: the record becomes current and is appended to the history. */
  function Start(s: Engine, e: Event): Engine
  {
    Engine(Some(e), true, s.history + [e], s.timer)
  }

  /** `activateSOS`. */
  function ActivateSOS(s: Engine, id: Uuid, now: Timestamp, location: Option<Coordinate>): (r: Engine)
    ensures r.active && r.current.Some?
    ensures var e := r.current.value;
      && e.id == id && e.kind == Sos && e.timestamp == now && e.location == location
      && e.duration.None? && e.isActive
      && e.contactsNotified == [] && !e.mediaRecorded && e.notes.None?
    ensures r.history == s.history + [r.current.value]
    ensures r.timer == s.timer
  {
    Start(s, NewEvent(id, Sos, now, location, None, true))
  }

  /** `activateSafetyTimer(duration:)`: like SOS, then schedules a one-shot timer. */
  function ActivateSafetyTimer(s: Engine, id: Uuid, now: Timestamp, location: Option<Coordinate>,
                               duration: int): (r: Engine)
    ensures r.active && r.current.Some?
    ensures var e := r.current.value;
      && e.id == id && e.kind == SafetyTimer && e.timestamp == now && e.location == location
      && e.duration == Some(duration) && e.isActive
      && e.contactsNotified == [] && !e.mediaRecorded && e.notes.None?
    ensures r.history == s.history + [r.current.value]
    ensures r.timer == Some(now + duration)
  {
    Start(s, NewEvent(id, SafetyTimer, now, location, Some(duration), true)).(timer := Some(now + duration))
  }

  /** `activateManualEmergency`. */
  function ActivateManualEmergency(s: Engine, id: Uuid, now: Timestamp, location: Option<Coordinate>): (r: Engine)
    ensures r.active && r.current.Some?
    ensures var e := r.current.value;
      && e.id == id && e.kind == Manual && e.timestamp == now && e.location == location
      && e.duration.None? && e.isActive
      && e.contactsNotified == [] && !e.mediaRecorded && e.notes.None?
    ensures r.history == s.history + [r.current.value]
    ensures r.timer == s.timer
  {
    Start(s, NewEvent(id, Manual, now, location, None, true))
  }

  // ---------------------------------------------------------------------------
  // Deactivation
  // ---------------------------------------------------------------------------

  /** The finalised copy of a record: inactive, with the elapsed time as its duration. */
  function Finalized(e: Event, now: Timestamp): (r: Event)
    ensures !r.isActive && r.duration == Some(now - e.timestamp)
    ensures r.(isActive := e.isActive, duration := e.duration) == e
  {
    e.(isActive := false, duration := Some(now - e.timestamp))
  }

  /** `firstIndex(where: { $0.id == id })`. */
  function FirstIndexOf(h: seq<Event>, id: Uuid): (r: Option<nat>)
    ensures r.Some? ==> r.value < |h| && h[r.value].id == id
    ensures r.Some? ==> forall j :: 0 <= j < r.value ==> h[j].id != id
    ensures r.None? ==> forall j :: 0 <= j < |h| ==> h[j].id != id
  {
    if h == [] then None
    else if h[0].id == id then Some(0)
    else match FirstIndexOf(h[1..], id)
      case None => None
      case Some(k) => Some(k + 1)
  }

  /** Index `i` holds the first entry of `h` with identifier `id`. */
  predicate IsFirstWithId(h: seq<Event>, i: int, id: Uuid)
  {
    0 <= i < |h| && h[i].id == id && forall j :: 0 <= j < i ==> h[j].id != id
  }

  /**
   * `deactivateEmergency`: with no current record nothing happens; otherwise
   * the timer is dropped, the first history entry with the current record's
   * id is overwritten by the finalised current record, and the service
   * becomes idle.
   */
  function Deactivate(s: Engine, now: Timestamp): (r: Engine)
    ensures s.current.None? ==> r == s
    ensures s.current.Some? ==> r.current.None? && !r.active && r.timer.None?
    ensures |r.history| == |s.history|
    ensures forall i :: 0 <= i < |s.history| ==> r.history[i].id == s.history[i].id
    ensures forall i :: 0 <= i < |s.history| && r.history[i] != s.history[i] ==>
      s.current.Some? && IsFirstWithId(s.history, i, s.current.value.id)
    ensures s.current.Some? ==> forall i :: IsFirstWithId(s.history, i, s.current.value.id) ==>
      r.history[i] == Finalized(s.current.value, now)
  {
    match s.current
    case None => s
    case Some(e) =>
      var h := match FirstIndexOf(s.history, e.id)
        case None => s.history
        case Some(i) => s.history[i := Finalized(e, now)];
      Engine(None, false, h, None)
  }

  // ---------------------------------------------------------------------------
  // Timer expiry
  // ---------------------------------------------------------------------------

  /** The guard of `handleSafetyTimerExpired`. */
  predicate ShouldEscalate(s: Engine)
  {
    s.active && s.current.Some? && s.current.value.kind == SafetyTimer
  }

  /**
   * `handleSafetyTimerExpired`: while a safety-timer record is current the
   * service runs a fresh SOS activation; in every other state it does nothing.
   */
  function TimerExpired(s: Engine, id: Uuid, now: Timestamp, location: Option<Coordinate>): (r: Engine)
    ensures !ShouldEscalate(s) ==> r == s
    ensures ShouldEscalate(s) ==>
      && r.current == Some(NewEvent(id, Sos, now, location, None, true))
      && r.active
      && r.history == s.history + [r.current.value]
      && r.timer == s.timer
  {
    if ShouldEscalate(s) then ActivateSOS(s, id, now, location) else s
  }

  // ---------------------------------------------------------------------------
  // History
  // ---------------------------------------------------------------------------

  /** Newest first: timestamps never increase along the sequence. */
  predicate NewestFirst(h: seq<Event>)
  {
    forall i, j :: 0 <= i < j < |h| ==> h[i].timestamp >= h[j].timestamp
  }

  /** Inserts `e` into a newest-first sequence. */
  function InsertByTimestamp(e: Event, h: seq<Event>): (r: seq<Event>)
    requires NewestFirst(h)
    ensures multiset(r) == multiset(h) + multiset{e}
    ensures NewestFirst(r)
  {
    if h == [] then [e]
    else if e.timestamp > h[0].timestamp then [e] + h
    else
      var rest := InsertByTimestamp(e, h[1..]);
      assert h == [h[0]] + h[1..];
      assert forall k | 0 <= k < |rest| :: h[0].timestamp >= rest[k].timestamp by {
        forall k | 0 <= k < |rest| ensures h[0].timestamp >= rest[k].timestamp {
          assert rest[k] in multiset(rest);
          if rest[k] != e {
            assert rest[k] in multiset(h[1..]);
          }
        }
      }
      [h[0]] + rest
  }

  /**
   * A sort by `timestamp`, newest first, standing for the library
   * `sorted(by: { $0.timestamp > $1.timestamp })`. Only its two properties
   * are relied on; the order among equal timestamps is not.
   */
  function SortByTimestamp(h: seq<Event>): (r: seq<Event>)
    ensures multiset(r) == multiset(h)
    ensures NewestFirst(r)
  {
    if h == [] then []
    else
      assert h == [h[0]] + h[1..];
      InsertByTimestamp(h[0], SortByTimestamp(h[1..]))
  }

  /** The timestamps of a history, position by position. */
  function Timestamps(h: seq<Event>): (r: seq<Timestamp>)
    ensures |r| == |h|
    ensures forall i :: 0 <= i < |h| ==> r[i] == h[i].timestamp
  {
    if h == [] then [] else [h[0].timestamp] + Timestamps(h[1..])
  }

  lemma TimestampsAppend(u: seq<Event>, v: seq<Event>)
    ensures Timestamps(u + v) == Timestamps(u) + Timestamps(v)
  {
  }

  /** Removing the element at `k` removes one occurrence of it from the multiset. */
  lemma {:induction false} MultisetRemoveAt(b: seq<Event>, k: nat)
    requires k < |b|
    ensures multiset(b[..k] + b[k + 1..]) == multiset(b) - multiset{b[k]}
  {
    assert b == b[..k] + [b[k]] + b[k + 1..];
    var m, m' := multiset(b[..k] + b[k + 1..]), multiset(b) - multiset{b[k]};
    forall y ensures m[y] == m'[y] {
      assert multiset(b)[y] == multiset(b[..k])[y] + multiset{b[k]}[y] + multiset(b[k + 1..])[y];
    }
    assert m == m';
  }

  /** The timestamps of a history are those of the entry at `k` and of the others. */
  lemma {:induction false} TimestampsRemoveAt(b: seq<Event>, k: nat)
    requires k < |b|
    ensures multiset(Timestamps(b)) == multiset{b[k].timestamp} + multiset(Timestamps(b[..k] + b[k + 1..]))
  {
    var t := [b[k].timestamp];
    assert Timestamps([b[k]]) == t;
    assert b == b[..k] + ([b[k]] + b[k + 1..]);
    TimestampsAppend(b[..k], [b[k]] + b[k + 1..]);
    TimestampsAppend([b[k]], b[k + 1..]);
    TimestampsAppend(b[..k], b[k + 1..]);
    calc {
      multiset(Timestamps(b));
      multiset(Timestamps(b[..k]) + (t + Timestamps(b[k + 1..])));
      multiset(t) + multiset(Timestamps(b[..k]) + Timestamps(b[k + 1..]));
    }
  }

  /** Histories holding the same records hold the same timestamps. */
  lemma {:induction false} TimestampsOfPermutation(a: seq<Event>, b: seq<Event>)
    requires multiset(a) == multiset(b)
    ensures multiset(Timestamps(a)) == multiset(Timestamps(b))
    decreases |a|
  {
    if a == [] {
      assert |b| == |multiset(b)| == 0;
    } else {
      assert a[0] in multiset(b);
      var k :| 0 <= k < |b| && b[k] == a[0];
      MultisetRemoveAt(a, 0);
      MultisetRemoveAt(b, k);
      assert a[..0] + a[1..] == a[1..];
      TimestampsOfPermutation(a[1..], b[..k] + b[k + 1..]);
      TimestampsRemoveAt(a, 0);
      TimestampsRemoveAt(b, k);
    }
  }

  /** Two non-increasing integer sequences with the same elements are equal. */
  lemma {:induction false} NonIncreasingUnique(p: seq<int>, q: seq<int>)
    requires multiset(p) == multiset(q)
    requires forall i, j :: 0 <= i < j < |p| ==> p[i] >= p[j]
    requires forall i, j :: 0 <= i < j < |q| ==> q[i] >= q[j]
    ensures p == q
  {
    if p != [] {
      assert |q| == |multiset(q)| == |p|;
      assert p[0] in multiset(q) && q[0] in multiset(p);
      assert p[0] == q[0];
      assert p == [p[0]] + p[1..] && q == [q[0]] + q[1..];
      assert multiset(p) == multiset{p[0]} + multiset(p[1..]);
      assert multiset(q) == multiset{q[0]} + multiset(q[1..]);
      forall y ensures multiset(p[1..])[y] == multiset(q[1..])[y] {
        assert multiset(p)[y] == multiset{p[0]}[y] + multiset(p[1..])[y];
      }
      assert multiset(p[1..]) == multiset(q[1..]);
      NonIncreasingUnique(p[1..], q[1..]);
    }
  }

  /**
   * Any two newest-first arrangements of the same records agree on the
   * timestamp at every position: a sort may differ from another only in the
   * order of records with equal timestamps.
   */
  lemma NewestFirstDeterminesTimestamps(a: seq<Event>, b: seq<Event>)
    requires multiset(a) == multiset(b)
    requires NewestFirst(a) && NewestFirst(b)
    ensures |a| == |b|
    ensures forall i :: 0 <= i < |a| ==> a[i].timestamp == b[i].timestamp
  {
    TimestampsOfPermutation(a, b);
    NonIncreasingUnique(Timestamps(a), Timestamps(b));
    assert |a| == |multiset(a)|;
  }

  /** `clearEmergencyHistory`: empties the history, nothing else changes. */
  function ClearHistory(s: Engine): (r: Engine)
    ensures r.history == []
    ensures r.current == s.current && r.active == s.active && r.timer == s.timer
  {
    s.(history := [])
  }

  // ---------------------------------------------------------------------------
  // Properties of the lifecycle
  // ---------------------------------------------------------------------------

  /** The invariant holds initially and every public operation keeps it. */
  lemma InvPreserved(s: Engine, id: Uuid, now: Timestamp, location: Option<Coordinate>, duration: int)
    requires Inv(s)
    ensures Inv(Initial())
    ensures Inv(ActivateSOS(s, id, now, location))
    ensures Inv(ActivateSafetyTimer(s, id, now, location, duration))
    ensures Inv(ActivateManualEmergency(s, id, now, location))
    ensures Inv(Deactivate(s, now))
    ensures Inv(TimerExpired(s, id, now, location))
    ensures Inv(ClearHistory(s))
  {
  }

  /** A deactivated service ignores a timer that fires afterwards. */
  lemma ExpiryAfterDeactivateIsNoop(s: Engine, now: Timestamp, id: Uuid, later: Timestamp,
                                    location: Option<Coordinate>)
    ensures TimerExpired(Deactivate(s, now), id, later, location) == Deactivate(s, now)
  {
  }

  /** A second expiry never escalates again: the first one left an SOS record current. */
  lemma ExpiryEscalatesAtMostOnce(s: Engine, id1: Uuid, t1: Timestamp, loc1: Option<Coordinate>,
                                  id2: Uuid, t2: Timestamp, loc2: Option<Coordinate>)
    ensures var s1 := TimerExpired(s, id1, t1, loc1);
      TimerExpired(s1, id2, t2, loc2) == s1
  {
  }

  /**
   * Escalation of an untouched safety timer: a new SOS record becomes current
   * and is appended, while the safety-timer record stays in the history
   * unchanged and still marked active, next to the active SOS record.
   */
  lemma EscalationKeepsTimerRecord(s: Engine, id: Uuid, t0: Timestamp, loc: Option<Coordinate>,
                                   d: int, id2: Uuid, t1: Timestamp, loc2: Option<Coordinate>)
    ensures var s1 := ActivateSafetyTimer(s, id, t0, loc, d);
      var s2 := TimerExpired(s1, id2, t1, loc2);
      && s2.current == Some(NewEvent(id2, Sos, t1, loc2, None, true))
      && s2.history == s.history + [s1.current.value, s2.current.value]
      && s2.history[|s.history|].kind == SafetyTimer
      && s2.history[|s.history|].isActive
      && s2.history[|s.history| + 1].isActive
      && s2.timer == Some(t0 + d)
  {
  }

  /**
   * Deactivating after an escalation finalises only the SOS record: the
   * safety-timer record keeps `isActive == true` and its planned duration.
   */
  lemma DeactivateAfterEscalation(s: Engine, id: Uuid, t0: Timestamp, loc: Option<Coordinate>,
                                  d: int, id2: Uuid, t1: Timestamp, loc2: Option<Coordinate>,
                                  t2: Timestamp)
    requires id2 != id
    requires forall i :: 0 <= i < |s.history| ==> s.history[i].id != id2
    ensures var s1 := ActivateSafetyTimer(s, id, t0, loc, d);
      var s2 := TimerExpired(s1, id2, t1, loc2);
      var s3 := Deactivate(s2, t2);
      && s3.history[|s.history|] == s1.current.value
      && s3.history[|s.history|].isActive
      && s3.history[|s.history|].duration == Some(d)
      && s3.history[|s.history| + 1] == Finalized(s2.current.value, t2)
      && s3.current.None? && !s3.active
  {
  }

  /**
   * The safety-timer scenario with deactivation before the deadline: a timer
   * of 5 started at 0 and stopped at 2 leaves one finalised record with
   * duration 2, and the expiry at 5 adds nothing.
   */
  lemma CancelledTimerScenario(id: Uuid, id2: Uuid)
    ensures var s1 := ActivateSafetyTimer(Initial(), id, 0, None, 5);
      var s2 := Deactivate(s1, 2);
      && s2.history == [NewEvent(id, SafetyTimer, 0, None, Some(2), false)]
      && TimerExpired(s2, id2, 5, None) == s2
  {
  }

  /** Sorting for display keeps every record and orders them newest first. */
  lemma SortedHistoryIsPermutation(h: seq<Event>)
    ensures |SortByTimestamp(h)| == |h|
    ensures forall e :: e in SortByTimestamp(h) <==> e in h
  {
    var r := SortByTimestamp(h);
    assert |multiset(r)| == |multiset(h)|;
    forall e ensures e in r <==> e in h {
      assert e in r <==> e in multiset(r);
      assert e in h <==> e in multiset(h);
    }
  }
}
