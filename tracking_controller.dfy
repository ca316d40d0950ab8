/** The tracking request handlers: read (with lazy creation), status change,
    driver location push and ETA calculation. Each is a read-modify-write over
    the store of tracking documents keyed by order id, followed by a broadcast
    to the order's room when the socket hub is attached to the app. */
module TrackingController {
  import opened Common
  import opened OrderTracking
  import Auth
  import opened SocketService

  // ---------------------------------------------------------------------------
  // ETA arithmetic

  /** A location object of the ETA request body. Either coordinate may be
      missing: the handler only checks that the object itself is present. */
  datatype LatLng = LatLng(lat: Option<real>, lng: Option<real>)

  /** Both coordinates are present, so the distance is a number. */
  predicate Located(p: LatLng) {
    p.lat.Some? && p.lng.Some?
  }

  const MillisPerMinute: int := 60000
  /** Width of the ETA window: 10 minutes. */
  const EtaWindowMillis: int := 10 * MillisPerMinute

  /** `Math.ceil`: the least integer at or above `x`. */
  function Ceil(x: real): (r: int)
    ensures (r - 1) as real < x <= r as real
  {
    var f := x.Floor;
    if f as real == x then f else f + 1
  }

  /** `Math.round`: the nearest integer, halves rounded up. */
  function Round(x: real): (r: int)
    ensures r as real - 0.5 <= x < r as real + 0.5
  {
    (x + 0.5).Floor
  }

  /** `Math.ceil((distance / 40) * 60)`: whole minutes of driving at 40 km/h. */
  function DurationMinutes(distanceKm: real): int {
    Ceil(distanceKm / 40.0 * 60.0)
  }

  /** The ETA for a driver `distanceKm` away at time `now` (milliseconds): the
      window opens after the whole number of minutes the drive takes at 40 km/h
      and is 10 minutes wide; the distance is reported in whole metres. */
  function EtaFor(distanceKm: real, now: int): (eta: Eta)
    ensures eta.end - eta.start == EtaWindowMillis
    ensures eta.durationSeconds % 60 == 0
    ensures eta.start == now + eta.durationSeconds * 1000
    // the duration is the least whole number of minutes covering the drive
    ensures var m := eta.durationSeconds / 60;
      (m - 1) as real < distanceKm * 3.0 / 2.0 <= m as real
    // the distance is the metre count rounded to the nearest metre
    ensures eta.distanceMeters as real - 0.5 <= distanceKm * 1000.0 < eta.distanceMeters as real + 0.5
  {
    var minutes := DurationMinutes(distanceKm);
    var start := now + minutes * MillisPerMinute;
    Eta(start, start + EtaWindowMillis, Round(distanceKm * 1000.0), minutes * 60)
  }

  /** A driver at the destination: no driving time, no distance, the window
      opens now. */
  lemma EtaAtDestination(now: int)
    ensures EtaFor(0.0, now) == Eta(now, now + EtaWindowMillis, 0, 0)
  {
    var e := EtaFor(0.0, now);
    assert e.durationSeconds / 60 == 0;
  }

  /** A driver further away never gets an earlier window. */
  lemma EtaMonotone(d1: real, d2: real, now: int)
    requires d1 <= d2
    ensures EtaFor(d1, now).durationSeconds <= EtaFor(d2, now).durationSeconds
    ensures EtaFor(d1, now).start <= EtaFor(d2, now).start
  {
    var m1, m2 := EtaFor(d1, now).durationSeconds / 60, EtaFor(d2, now).durationSeconds / 60;
    assert (m1 - 1) as real < m2 as real;
  }

  // ---------------------------------------------------------------------------
  // Access to an order's tracking

  /** The order record of the order collection, as far as tracking reads it. */
  datatype Order = Order(id: string, userId: string, status: Option<string>, createdAt: int,
                         deliveryLocation: Option<RawLocation>)

  /** `req.user.id`, the property the access check reads. `protect` builds
      `req.user` from `userId`, `email`, `roles` and `isActive` only, so the
      property is undefined. */
  function RequestUserId(u: Auth.RequestUser): Json {
    Undefined
  }

  /** The access check as written: compares `req.user.id` with the order's user. */
  predicate AccessDeniedAsWritten(user: Option<Auth.RequestUser>, order: Order) {
    user.Some? && RequestUserId(user.value) != Str(order.userId) &&
    "admin" !in user.value.roles && "staff" !in user.value.roles
  }

  /** The access check as intended: a present user who is neither the order's
      customer nor an admin nor staff is refused. */
  predicate AccessDenied(user: Option<Auth.RequestUser>, order: Order) {
    user.Some? && user.value.userId != order.userId &&
    "admin" !in user.value.roles && "staff" !in user.value.roles
  }

  /** As written, the order's own customer is refused: the identity compared is
      always undefined. */
  lemma OwnerDeniedAsWritten(order: Order)
    ensures var owner := Auth.RequestUser(order.userId, "customer@example.com", ["customer"], true);
      AccessDeniedAsWritten(Some(owner), order) && !AccessDenied(Some(owner), order)
  {
  }

  /** As written the decision ignores who the user is: only the roles count. */
  lemma AsWrittenIgnoresIdentity(u: Auth.RequestUser, order: Order)
    ensures AccessDeniedAsWritten(Some(u), order) <==> "admin" !in u.roles && "staff" !in u.roles
  {
  }

  /** The intended check admits the customer, admins, staff and requests
      without a user, and refuses everyone else. */
  lemma AccessRule(user: Option<Auth.RequestUser>, order: Order)
    ensures user.None? ==> !AccessDenied(user, order)
    ensures user.Some? && user.value.userId == order.userId ==> !AccessDenied(user, order)
    ensures user.Some? && ("admin" in user.value.roles || "staff" in user.value.roles) ==> !AccessDenied(user, order)
    ensures (user.Some? && user.value.userId != order.userId &&
             "admin" !in user.value.roles && "staff" !in user.value.roles) ==> AccessDenied(user, order)
  {
  }

  // ---------------------------------------------------------------------------
  // Lazy creation of a tracking document

  /** `order.status || 'preparing'`. */
  function SeedStatusName(order: Order): string {
    StringOr(order.status, "preparing")
  }

  /** `order.deliveryAddress?.location || { lat: 0, lng: 0 }`. */
  function SeedLocation(order: Order): RawLocation {
    if order.deliveryLocation.Some? then order.deliveryLocation.value
    else RawLocation(Some(0.0), Some(0.0), None, None, None)
  }

  /** The document `getOrderTracking` creates for an order without one, or
      None when saving it fails schema validation (the order's status is not
      one of the eight, or its delivery location lacks a coordinate). */
  function SeedDoc(orderId: string, order: Order, now: int): (r: Option<TrackingDoc>)
    ensures r.None? <==> ParseStatus(SeedStatusName(order)).None? || CastLocation(SeedLocation(order), now).None?
    ensures r.Some? ==>
      var s := ParseStatus(SeedStatusName(order)).value;
      r.value.orderId == orderId && r.value.status == s &&
      r.value.timeline == [TimelineEntry(s, order.createdAt, Some("Order placed"))] &&
      r.value.userLocation == CastLocation(SeedLocation(order), now) &&
      r.value.lastUpdate == now && StatusMatchesTimeline(r.value)
  {
    match (ParseStatus(SeedStatusName(order)), CastLocation(SeedLocation(order), now))
    case (Some(s), Some(loc)) =>
      Some(NewDoc(orderId, Some(s), Some(loc), [TimelineEntry(s, order.createdAt, Some("Order placed"))], now))
    case _ => None
  }

  /** An order without a status is seeded as `preparing`. */
  lemma SeedDefaultsToPreparing(orderId: string, order: Order, now: int)
    requires !TruthyString(order.status) && order.deliveryLocation.None?
    ensures SeedDoc(orderId, order, now).Some?
    ensures SeedDoc(orderId, order, now).value.status == Preparing
  {
  }

  // ---------------------------------------------------------------------------
  // The store and the handlers

  /** The list of valid statuses the status handler checks against. */
  const ValidStatuses: seq<string> := [
    "accepted_by_staff", "preparing", "ready_for_handover", "picked_by_driver",
    "on_the_way", "arriving", "delivered", "cancelled"
  ]

  /** The handler's list and the schema's enum accept the same strings. */
  lemma ValidStatusesAreTheEnum(x: string)
    ensures x in ValidStatuses <==> ParseStatus(x).Some?
  {
    assert ValidStatuses == StatusNames;
  }

  /** What a handler does outside its reply, in order: a document saved, the
      external order's status updated, an event emitted to a room. */
  datatype Effect =
    | Saved(orderId: string, doc: TrackingDoc)
    | OrderStatusSynced(orderId: string, status: Status)
    | Broadcast(room: string, event: string, payload: Payload)

  /** Every broadcast to an order's room comes after a save of that order. */
  ghost predicate BroadcastsFollowSaves(journal: seq<Effect>) {
    forall i :: 0 <= i < |journal| && journal[i].Broadcast? ==>
      exists k :: 0 <= k < i && journal[k].Saved? && OrderRoom(journal[k].orderId) == journal[i].room
  }

  /** Appending an effect keeps every broadcast after a save, given a save of
      the broadcast's order at index `k` when the effect is a broadcast. */
  lemma JournalAppend(journal: seq<Effect>, e: Effect, k: int)
    requires BroadcastsFollowSaves(journal)
    requires e.Broadcast? ==> 0 <= k < |journal| && journal[k].Saved? && OrderRoom(journal[k].orderId) == e.room
    ensures BroadcastsFollowSaves(journal + [e])
  {
    var j := journal + [e];
    forall i | 0 <= i < |j| && j[i].Broadcast?
      ensures exists k' :: 0 <= k' < i && j[k'].Saved? && OrderRoom(j[k'].orderId) == j[i].room
    {
      if i < |journal| {
        var k0 :| 0 <= k0 < i && journal[k0].Saved? && OrderRoom(journal[k0].orderId) == journal[i].room;
        assert j[k0] == journal[k0];
      } else {
        assert j[k] == journal[k];
      }
    }
  }

  function StatusPayload(orderId: string, status: Status, message: Option<string>, now: int): Payload {
    map["orderId" := Str(orderId), "status" := Str(StatusName(status)),
        "timestamp" := Time(now), "message" := OptionalString(message)]
  }

  function DriverLocationPayload(orderId: string, loc: Location, now: int): Payload {
    map["orderId" := Str(orderId), "lat" := Num(loc.lat), "lng" := Num(loc.lng),
        "speed" := OptionalNumber(loc.speed), "heading" := OptionalNumber(loc.heading),
        "timestamp" := Time(now)]
  }

  function EtaPayload(orderId: string, eta: Eta): Payload {
    map["orderId" := Str(orderId), "etaStart" := Time(eta.start), "etaEnd" := Time(eta.end),
        "distanceMeters" := Num(eta.distanceMeters as real),
        "durationSeconds" := Num(eta.durationSeconds as real)]
  }

  /** `speed ? parseFloat(speed) : undefined`: a zero or absent value is dropped. */
  function IfTruthy(v: Option<real>): Option<real> {
    if TruthyNumber(v) then v else None
  }

  /** The tracking collection, the socket hub's presence on the app, and the
      journal of effects. */
  class TrackingService {
    var records: map<string, TrackingDoc>
    var ioReady: bool
    var journal: seq<Effect>

    ghost predicate Valid()
      reads this
    {
      (forall o :: o in records ==> records[o].orderId == o && StatusMatchesTimeline(records[o])) &&
      BroadcastsFollowSaves(journal)
    }

    constructor (ioReady: bool)
      ensures Valid()
      ensures records == map[] && journal == [] && this.ioReady == ioReady
    {
      records, journal := map[], [];
      this.ioReady := ioReady;
    }

    /** `OrderTracking.findOne({ orderId })`: a fresh document object, or null. */
    method FindOne(orderId: string) returns (r: TrackingRecord?)
      ensures r == null <==> orderId !in records
      ensures r != null ==> fresh(r) && r.Doc() == records[orderId]
    {
      if orderId in records {
        r := new TrackingRecord.Load(records[orderId]);
      } else {
        r := null;
      }
    }

    /** `tracking.save()`: the pre-save hook stamps `lastUpdate`, then the
        document replaces the stored one. */
    method Save(r: TrackingRecord, now: int)
      modifies this, r
      ensures r.Doc() == old(r.Doc()).(lastUpdate := now)
      ensures records == old(records)[r.orderId := r.Doc()]
      ensures journal == old(journal) + [Saved(r.orderId, r.Doc())]
      ensures ioReady == old(ioReady)
      ensures BroadcastsFollowSaves(old(journal)) ==> BroadcastsFollowSaves(journal)
    {
      r.PreSave(now);
      records := records[r.orderId := r.Doc()];
      journal := journal + [Saved(r.orderId, r.Doc())];
      if BroadcastsFollowSaves(old(journal)) {
        JournalAppend(old(journal), Saved(r.orderId, r.Doc()), 0);
      }
    }

    /** Emits to the order's room when the hub is attached; the last effect
        of the journal must be the save of that order. */
    method BroadcastAfterSave(orderId: string, event: string, payload: Payload)
      requires Valid()
      requires orderId in records && |journal| > 0 && journal[|journal| - 1] == Saved(orderId, records[orderId])
      modifies this
      ensures Valid()
      ensures records == old(records) && ioReady == old(ioReady)
      ensures journal == old(journal) + (if ioReady then [Broadcast(OrderRoom(orderId), event, payload)] else [])
    {
      if ioReady {
        JournalAppend(journal, Broadcast(OrderRoom(orderId), event, payload), |journal| - 1);
        journal := journal + [Broadcast(OrderRoom(orderId), event, payload)];
      }
    }

    /** `getOrderTracking`: 404 without an order, 403 when access is denied,
        otherwise the order's tracking document, created and saved first when
        there is none. */
    method GetOrderTracking(orderId: string, user: Option<Auth.RequestUser>, order: Option<Order>, now: int)
      returns (r: Result<TrackingDoc>)
      requires Valid()
      modifies this
      ensures Valid() && ioReady == old(ioReady)
      ensures order.None? ==> r == Err(NotFound)
      ensures order.Some? && AccessDenied(user, order.value) ==> r == Err(Forbidden)
      ensures r.Err? ==> records == old(records) && journal == old(journal)
      ensures order.Some? && !AccessDenied(user, order.value) ==>
        if orderId in old(records) then
          r == Ok(old(records)[orderId]) && records == old(records) && journal == old(journal)
        else if SeedDoc(orderId, order.value, now).None? then
          r == Err(ServerError)
        else
          var seed := SeedDoc(orderId, order.value, now).value;
          r == Ok(seed) && records == old(records)[orderId := seed] &&
          journal == old(journal) + [Saved(orderId, seed)]
    {
      if order.None? {
        r := Err(NotFound);
        return;
      }
      if AccessDenied(user, order.value) {
        r := Err(Forbidden);
        return;
      }
      var tracking := FindOne(orderId);
      if tracking == null {
        var seed := SeedDoc(orderId, order.value, now);
        if seed.None? {
          r := Err(ServerError);
          return;
        }
        tracking := new TrackingRecord.Load(seed.value);
        Save(tracking, now);
      }
      r := Ok(tracking.Doc());
    }

    /** `updateOrderStatus`: 400 for a status outside the eight; otherwise the
        order's document (a new one with an empty timeline when there is
        none) gets the status and one timeline entry, is saved, the order's
        own status is updated, and `order_status` is broadcast. */
    method UpdateOrderStatus(orderId: string, status: Option<string>, message: Option<string>, now: int)
      returns (r: Result<TrackingDoc>)
      requires Valid()
      modifies this
      ensures Valid() && ioReady == old(ioReady)
      ensures status.None? || status.value !in ValidStatuses ==>
        r == Err(BadRequest) && records == old(records) && journal == old(journal)
      ensures status.Some? && status.value in ValidStatuses ==>
        var s := ParseStatus(status.value).value;
        var before := if orderId in old(records) then old(records)[orderId] else NewDoc(orderId, Some(s), None, [], now);
        r == Ok(UpdateStatusDoc(before, s, message, now).(lastUpdate := now)) &&
        records == old(records)[orderId := r.value] &&
        journal == old(journal) + [Saved(orderId, r.value), OrderStatusSynced(orderId, s)] +
                   (if ioReady then [Broadcast(OrderRoom(orderId), "order_status", StatusPayload(orderId, s, message, now))] else [])
      // A new document has exactly the one entry of this change.
      ensures r.Ok? && orderId !in old(records) ==>
        r.value.timeline == [TimelineEntry(r.value.status, now, message)]
    {
      if status.None? || status.value !in ValidStatuses {
        r := Err(BadRequest);
        return;
      }
      ValidStatusesAreTheEnum(status.value);
      var s := ParseStatus(status.value).value;
      var tracking := FindOne(orderId);
      if tracking == null {
        tracking := new TrackingRecord.Load(NewDoc(orderId, Some(s), None, [], now));
      }
      tracking.UpdateStatus(s, message, now);
      Save(tracking, now);
      var saved := |journal| - 1;
      JournalAppend(journal, OrderStatusSynced(orderId, s), 0);
      journal := journal + [OrderStatusSynced(orderId, s)];
      if ioReady {
        var e := Broadcast(OrderRoom(orderId), "order_status", StatusPayload(orderId, s, message, now));
        JournalAppend(journal, e, saved);
        journal := journal + [e];
      }
      r := Ok(tracking.Doc());
    }

    /** `updateDriverLocation`: 400 without an order id or a coordinate, 404
        when the order has no tracking document (none is created); otherwise
        the driver location slot is replaced as a whole, the document saved and
        `driver_location` broadcast. */
    method UpdateDriverLocation(orderId: Option<string>, lat: Option<real>, lng: Option<real>,
                                speed: Option<real>, heading: Option<real>, now: int)
      returns (r: Result<Location>)
      requires Valid()
      modifies this
      ensures Valid() && ioReady == old(ioReady)
      ensures !TruthyString(orderId) || lat.None? || lng.None? ==> r == Err(BadRequest)
      ensures TruthyString(orderId) && lat.Some? && lng.Some? && orderId.value !in old(records) ==> r == Err(NotFound)
      ensures r.Err? ==> records == old(records) && journal == old(journal)
      ensures TruthyString(orderId) && lat.Some? && lng.Some? && orderId.value in old(records) ==>
        var o := orderId.value;
        var loc := Location(lat.value, lng.value, now, IfTruthy(speed), IfTruthy(heading));
        var doc := old(records)[o].(driverLocation := Some(loc), lastUpdate := now);
        r == Ok(loc) && records == old(records)[o := doc] &&
        journal == old(journal) + [Saved(o, doc)] +
                   (if ioReady then [Broadcast(OrderRoom(o), "driver_location", DriverLocationPayload(o, loc, now))] else [])
    {
      if !TruthyString(orderId) || lat.None? || lng.None? {
        r := Err(BadRequest);
        return;
      }
      var o := orderId.value;
      var tracking := FindOne(o);
      if tracking == null {
        r := Err(NotFound);
        return;
      }
      var loc := Location(lat.value, lng.value, now, IfTruthy(speed), IfTruthy(heading));
      tracking.driverLocation := Some(loc);
      Save(tracking, now);
      BroadcastAfterSave(o, "driver_location", DriverLocationPayload(o, loc, now));
      r := Ok(loc);
    }

    /** `calculateETA`: 400 without both location objects. When one of them
        lacks a coordinate the distance is NaN and so is every ETA field:
        saving such an ETA fails the Date cast (500, nothing changes), and
        without a document the response is the ETA with null fields
        (`Ok(None)`). Otherwise the ETA for the distance between them is
        returned, and when the order has a tracking document it is stored
        there, saved and `eta_update` broadcast. */
    method CalculateEta(orderId: string, driverLocation: Option<LatLng>, userLocation: Option<LatLng>,
                        distance: (LatLng, LatLng) -> real, now: int)
      returns (r: Result<Option<Eta>>)
      requires Valid()
      modifies this
      ensures Valid() && ioReady == old(ioReady)
      ensures driverLocation.None? || userLocation.None? ==>
        r == Err(BadRequest) && records == old(records) && journal == old(journal)
      ensures driverLocation.Some? && userLocation.Some? &&
              !(Located(driverLocation.value) && Located(userLocation.value)) ==>
        r == (if orderId in old(records) then Err(ServerError) else Ok(None)) &&
        records == old(records) && journal == old(journal)
      ensures driverLocation.Some? && userLocation.Some? &&
              Located(driverLocation.value) && Located(userLocation.value) ==>
        var eta := EtaFor(distance(driverLocation.value, userLocation.value), now);
        r == Ok(Some(eta)) &&
        if orderId in old(records) then
          var doc := old(records)[orderId].(eta := Some(eta), lastUpdate := now);
          records == old(records)[orderId := doc] &&
          journal == old(journal) + [Saved(orderId, doc)] +
                     (if ioReady then [Broadcast(OrderRoom(orderId), "eta_update", EtaPayload(orderId, eta))] else [])
        else
          records == old(records) && journal == old(journal)
    {
      if driverLocation.None? || userLocation.None? {
        r := Err(BadRequest);
        return;
      }
      var tracking := FindOne(orderId);
      if !(Located(driverLocation.value) && Located(userLocation.value)) {
        r := if tracking != null then Err(ServerError) else Ok(None);
        return;
      }
      var eta := EtaFor(distance(driverLocation.value, userLocation.value), now);
      if tracking != null {
        tracking.eta := Some(eta);
        Save(tracking, now);
        BroadcastAfterSave(orderId, "eta_update", EtaPayload(orderId, eta));
      }
      r := Ok(Some(eta));
    }
  }

  /** A location push for an order nobody has read yet fails; after the order's
      tracking is read (which creates the document), the same push succeeds. */
  method ReadThenPushScenario(order: Order, lat: real, lng: real, now: int)
    returns (before: Result<Location>, read: Result<TrackingDoc>, after: Result<Location>)
    requires order.id != "" && !TruthyString(order.status) && order.deliveryLocation.None?
    ensures before == Err(NotFound)
    ensures read.Ok? && read.value.status == Preparing
    ensures after == Ok(Location(lat, lng, now, None, None))
  {
    var service := new TrackingService(true);
    before := service.UpdateDriverLocation(Some(order.id), Some(lat), Some(lng), None, None, now);
    SeedDefaultsToPreparing(order.id, order, now);
    read := service.GetOrderTracking(order.id, None, Some(order), now);
    after := service.UpdateDriverLocation(Some(order.id), Some(lat), Some(lng), None, None, now);
  }
}
