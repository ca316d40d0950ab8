/** The order-tracking document: one per order, holding the delivery status,
    the append-only timeline of status changes, three replaceable location
    slots, the ETA window and the time of the last save. */
module OrderTracking {
  import opened Common

  /** The eight stages of the status enum (and of a timeline entry's stage). */
  datatype Status =
    | AcceptedByStaff
    | Preparing
    | ReadyForHandover
    | PickedByDriver
    | OnTheWay
    | Arriving
    | Delivered
    | Cancelled

  /** The enum values as the schema lists them. */
  const StatusNames: seq<string> := [
    "accepted_by_staff", "preparing", "ready_for_handover", "picked_by_driver",
    "on_the_way", "arriving", "delivered", "cancelled"
  ]

  function StatusName(s: Status): string {
    match s
    case AcceptedByStaff => "accepted_by_staff"
    case Preparing => "preparing"
    case ReadyForHandover => "ready_for_handover"
    case PickedByDriver => "picked_by_driver"
    case OnTheWay => "on_the_way"
    case Arriving => "arriving"
    case Delivered => "delivered"
    case Cancelled => "cancelled"
  }

  /** The enum check of the schema: a string is a status exactly when it is one
      of the eight names, and then it names that status. */
  function ParseStatus(x: string): (r: Option<Status>)
    ensures r.Some? ==> StatusName(r.value) == x
    ensures r.None? <==> x !in StatusNames
  {
    if x == "accepted_by_staff" then Some(AcceptedByStaff)
    else if x == "preparing" then Some(Preparing)
    else if x == "ready_for_handover" then Some(ReadyForHandover)
    else if x == "picked_by_driver" then Some(PickedByDriver)
    else if x == "on_the_way" then Some(OnTheWay)
    else if x == "arriving" then Some(Arriving)
    else if x == "delivered" then Some(Delivered)
    else if x == "cancelled" then Some(Cancelled)
    else None
  }

  /** Every status has a name in the enum, and parsing the name gives the status
      back; so the eight names are distinct. */
  lemma ParseStatusName(s: Status)
    ensures StatusName(s) in StatusNames
    ensures ParseStatus(StatusName(s)) == Some(s)
  {
    match s
    case AcceptedByStaff =>
    case Preparing =>
    case ReadyForHandover =>
    case PickedByDriver =>
    case OnTheWay =>
    case Arriving =>
    case Delivered =>
    case Cancelled =>
  }

  datatype TimelineEntry = TimelineEntry(stage: Status, time: int, message: Option<string>)

  /** A location slot. The schema requires `lat` and `lng`; `updatedAt`
      defaults to the time the slot is written. */
  datatype Location = Location(lat: real, lng: real, updatedAt: int, speed: Option<real>, heading: Option<real>)

  /** A location object as some caller supplies it, before schema casting. */
  datatype RawLocation = RawLocation(lat: Option<real>, lng: Option<real>, updatedAt: Option<int>, speed: Option<real>, heading: Option<real>)

  /** Casting a raw location into the location sub-schema: it fails unless both
      `lat` and `lng` are present; `updatedAt` defaults to `now`. */
  function CastLocation(raw: RawLocation, now: int): (r: Option<Location>)
    ensures r.Some? <==> raw.lat.Some? && raw.lng.Some?
    ensures r.Some? ==>
      r.value.lat == raw.lat.value && r.value.lng == raw.lng.value &&
      r.value.updatedAt == (if raw.updatedAt.Some? then raw.updatedAt.value else now) &&
      r.value.speed == raw.speed && r.value.heading == raw.heading
  {
    if raw.lat.Some? && raw.lng.Some? then
      Some(Location(raw.lat.value, raw.lng.value,
                    if raw.updatedAt.Some? then raw.updatedAt.value else now,
                    raw.speed, raw.heading))
    else None
  }

  /** The ETA sub-document. `start` and `end` are required by the schema, so
      they are not optional here; times are milliseconds. */
  datatype Eta = Eta(start: int, end: int, distanceMeters: int, durationSeconds: int)

  /** The persisted tracking document of one order. */
  datatype TrackingDoc = TrackingDoc(
    orderId: string,
    status: Status,
    staffLocation: Option<Location>,
    driverLocation: Option<Location>,
    userLocation: Option<Location>,
    eta: Option<Eta>,
    timeline: seq<TimelineEntry>,
    isDriverStationary: bool,
    lastUpdate: int)

  /** `new OrderTracking({...})`: the fields given, and the schema defaults for
      the rest (status `preparing`, `isDriverStationary` false, `lastUpdate`
      now, no locations other than the given user location, no ETA). */
  function NewDoc(orderId: string, status: Option<Status>, userLocation: Option<Location>,
                  timeline: seq<TimelineEntry>, now: int): (d: TrackingDoc)
    ensures d.orderId == orderId && d.timeline == timeline
    ensures d.status == (if status.Some? then status.value else Preparing)
    ensures !d.isDriverStationary && d.lastUpdate == now
    ensures d.staffLocation.None? && d.driverLocation.None? && d.eta.None?
    ensures d.userLocation == userLocation
  {
    TrackingDoc(orderId, if status.Some? then status.value else Preparing,
                None, None, userLocation, None, timeline, false, now)
  }

  /** The tracking invariant: the status is the stage of the last timeline entry. */
  predicate StatusMatchesTimeline(d: TrackingDoc) {
    |d.timeline| > 0 && d.timeline[|d.timeline| - 1].stage == d.status
  }

  /** `updateStatus(newStatus, message)` on a document value. Any status may
      follow any other: there is no precondition on the current status. */
  function UpdateStatusDoc(d: TrackingDoc, s: Status, message: Option<string>, now: int): (r: TrackingDoc)
    ensures r.status == s
    ensures |r.timeline| == |d.timeline| + 1
    ensures r.timeline[..|d.timeline|] == d.timeline
    ensures r.timeline[|d.timeline|] == TimelineEntry(s, now, message)
    ensures StatusMatchesTimeline(r)
    ensures r == d.(status := s, timeline := r.timeline)
  {
    d.(status := s, timeline := d.timeline + [TimelineEntry(s, now, message)])
  }

  /** One call of `updateStatus`, with the time it happens. */
  datatype StatusChange = StatusChange(status: Status, message: Option<string>, time: int)

  function ApplyStatusChanges(d: TrackingDoc, changes: seq<StatusChange>): TrackingDoc
    decreases |changes|
  {
    if |changes| == 0 then d
    else ApplyStatusChanges(UpdateStatusDoc(d, changes[0].status, changes[0].message, changes[0].time), changes[1..])
  }

  /** N calls of `updateStatus` append exactly N entries, one per call and in
      call order, leave the earlier entries untouched, and end with the status
      of the last call as the stage of the last entry. */
  lemma {:induction false} StatusChangesAppend(d: TrackingDoc, changes: seq<StatusChange>)
    ensures var r := ApplyStatusChanges(d, changes);
      |r.timeline| == |d.timeline| + |changes| &&
      r.timeline[..|d.timeline|] == d.timeline &&
      (forall i :: 0 <= i < |changes| ==>
        r.timeline[|d.timeline| + i] == TimelineEntry(changes[i].status, changes[i].time, changes[i].message)) &&
      (|changes| > 0 ==> r.status == changes[|changes| - 1].status && StatusMatchesTimeline(r)) &&
      (|changes| == 0 ==> r == d)
    decreases |changes|
  {
    if |changes| > 0 {
      var d1 := UpdateStatusDoc(d, changes[0].status, changes[0].message, changes[0].time);
      var rest := changes[1..];
      StatusChangesAppend(d1, rest);
      var r := ApplyStatusChanges(d1, rest);
      assert r == ApplyStatusChanges(d, changes);
      assert r.timeline[..|d.timeline|] == d.timeline by {
        assert r.timeline[..|d.timeline|] == r.timeline[..|d1.timeline|][..|d.timeline|];
      }
      forall i | 0 <= i < |changes|
        ensures r.timeline[|d.timeline| + i] == TimelineEntry(changes[i].status, changes[i].time, changes[i].message)
      {
        if i > 0 {
          assert rest[i - 1] == changes[i];
          assert |d1.timeline| + (i - 1) == |d.timeline| + i;
        } else {
          assert r.timeline[|d.timeline|] == r.timeline[..|d1.timeline|][|d.timeline|];
        }
      }
      if |rest| == 0 {
        assert r == d1;
      } else {
        assert rest[|rest| - 1] == changes[|changes| - 1];
      }
    }
  }

  predicate TimesNonDecreasing(timeline: seq<TimelineEntry>) {
    forall i, j :: 0 <= i < j < |timeline| ==> timeline[i].time <= timeline[j].time
  }

  predicate ChangesAtOrAfter(changes: seq<StatusChange>, t: int) {
    forall i :: 0 <= i < |changes| ==> t <= changes[i].time
  }

  predicate ChangesChronological(changes: seq<StatusChange>) {
    forall i, j :: 0 <= i < j < |changes| ==> changes[i].time <= changes[j].time
  }

  /** With a clock that never runs backwards, the timeline stays in time order. */
  lemma {:induction false} StatusChangesKeepChronology(d: TrackingDoc, changes: seq<StatusChange>)
    requires TimesNonDecreasing(d.timeline)
    requires ChangesChronological(changes)
    requires |d.timeline| > 0 ==> ChangesAtOrAfter(changes, d.timeline[|d.timeline| - 1].time)
    ensures TimesNonDecreasing(ApplyStatusChanges(d, changes).timeline)
    decreases |changes|
  {
    if |changes| > 0 {
      var c := changes[0];
      var d1 := UpdateStatusDoc(d, c.status, c.message, c.time);
      assert TimesNonDecreasing(d1.timeline) by {
        forall i, j | 0 <= i < j < |d1.timeline| ensures d1.timeline[i].time <= d1.timeline[j].time {
          if j < |d.timeline| {
            assert d1.timeline[i] == d.timeline[i] && d1.timeline[j] == d.timeline[j];
          } else {
            assert d1.timeline[i] == d.timeline[i];
            assert d.timeline[i].time <= d.timeline[|d.timeline| - 1].time;
          }
        }
      }
      var rest := changes[1..];
      assert ChangesChronological(rest) by {
        forall i, j | 0 <= i < j < |rest| ensures rest[i].time <= rest[j].time {
          assert rest[i] == changes[i + 1] && rest[j] == changes[j + 1];
        }
      }
      assert ChangesAtOrAfter(rest, d1.timeline[|d1.timeline| - 1].time) by {
        forall i | 0 <= i < |rest| ensures c.time <= rest[i].time {
          assert rest[i] == changes[i + 1];
        }
      }
      StatusChangesKeepChronology(d1, rest);
    }
  }

  /** A run of saves at the given times: each one's pre-save hook stamps
      `lastUpdate`. */
  function ApplySaves(d: TrackingDoc, times: seq<int>): TrackingDoc
    decreases |times|
  {
    if |times| == 0 then d else ApplySaves(d.(lastUpdate := times[0]), times[1..])
  }

  /** With a clock that never runs backwards, `lastUpdate` after a run of saves
      is the time of the last one, hence at least every earlier save time, and
      nothing else in the document changes. */
  lemma {:induction false} LastUpdateIsLatestSave(d: TrackingDoc, times: seq<int>)
    requires forall i, j :: 0 <= i < j < |times| ==> times[i] <= times[j]
    ensures |times| > 0 ==> ApplySaves(d, times).lastUpdate == times[|times| - 1]
    ensures forall i :: 0 <= i < |times| ==> times[i] <= ApplySaves(d, times).lastUpdate
    ensures ApplySaves(d, times).(lastUpdate := d.lastUpdate) == d
    decreases |times|
  {
    if |times| > 0 {
      var d1 := d.(lastUpdate := times[0]);
      var rest := times[1..];
      assert forall i, j :: 0 <= i < j < |rest| ==> rest[i] <= rest[j] by {
        forall i, j | 0 <= i < j < |rest| ensures rest[i] <= rest[j] {
          assert rest[i] == times[i + 1] && rest[j] == times[j + 1];
        }
      }
      LastUpdateIsLatestSave(d1, rest);
      var r := ApplySaves(d1, rest);
      assert r == ApplySaves(d, times);
      forall i | 0 <= i < |times| ensures times[i] <= r.lastUpdate {
        if i > 0 {
          assert times[i] == rest[i - 1];
        } else if |rest| > 0 {
          assert times[0] <= times[|times| - 1] && rest[|rest| - 1] == times[|times| - 1];
        }
      }
      if |rest| > 0 {
        assert rest[|rest| - 1] == times[|times| - 1];
      }
    }
  }

  /** The tracking document as the mutable object a handler loads, changes
      field by field and saves. */
  class TrackingRecord {
    var orderId: string
    var status: Status
    var staffLocation: Option<Location>
    var driverLocation: Option<Location>
    var userLocation: Option<Location>
    var eta: Option<Eta>
    var timeline: seq<TimelineEntry>
    var isDriverStationary: bool
    var lastUpdate: int

    /** The document value the object currently holds. */
    function Doc(): TrackingDoc
      reads this
    {
      TrackingDoc(orderId, status, staffLocation, driverLocation, userLocation, eta,
                  timeline, isDriverStationary, lastUpdate)
    }

    constructor Load(d: TrackingDoc)
      ensures Doc() == d
    {
      orderId, status := d.orderId, d.status;
      staffLocation, driverLocation, userLocation := d.staffLocation, d.driverLocation, d.userLocation;
      eta, timeline := d.eta, d.timeline;
      isDriverStationary, lastUpdate := d.isDriverStationary, d.lastUpdate;
    }

    /** `addTimelineEntry(stage, message)`: appends one entry stamped `now`. */
    method AddTimelineEntry(stage: Status, message: Option<string>, now: int)
      modifies this
      ensures timeline == old(timeline) + [TimelineEntry(stage, now, message)]
      ensures Doc() == old(Doc()).(timeline := timeline)
    {
      timeline := timeline + [TimelineEntry(stage, now, message)];
    }

    /** `updateStatus(newStatus, message)`: sets the status and appends its
      timeline entry, whatever the current status is. */
    method UpdateStatus(newStatus: Status, message: Option<string>, now: int)
      modifies this
      ensures Doc() == UpdateStatusDoc(old(Doc()), newStatus, message, now)
      ensures StatusMatchesTimeline(Doc())
    {
      status := newStatus;
      AddTimelineEntry(newStatus, message, now);
    }

    /** The pre-save hook: every save stamps `lastUpdate` with the save time. */
    method PreSave(now: int)
      modifies this
      ensures Doc() == old(Doc()).(lastUpdate := now)
    {
      lastUpdate := now;
    }
  }
}
