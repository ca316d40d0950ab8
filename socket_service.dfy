/** The real-time tracking hub: the handshake that labels each connection with
    an identity, the per-order rooms connections join and leave, the relays of
    driver, status and ETA messages to a room, and the server-side helpers that
    emit to a room or an order. Room membership is an abstract map from room
    names to sets of connections; an emitted event is recorded with the set of
    connections it is addressed to. */
module SocketService {
  import opened Common
  import opened Text
  import Auth

  /** A connection id. */
  type Conn = nat

  /** What the handshake established about a connection. `userId` is the
      verified token's `id` claim, which may be absent. */
  datatype Identity =
    | Anonymous
    | Authenticated(userId: Option<string>, roles: seq<string>)

  /** An event sent to a set of connections. */
  datatype Delivery = Delivery(to: set<Conn>, event: string, payload: Payload)

  const AuthenticationRequired := "Authentication required"

  // ---------------------------------------------------------------------------
  // room names

  /** The room of an order. */
  function OrderRoom(orderId: string): string {
    "order_room_" + orderId
  }

  /** An order id as a template literal prints it: an absent one is
      "undefined". */
  function Interpolate(orderId: Option<string>): string {
    if orderId.Some? then orderId.value else "undefined"
  }

  /** `roomName || \`order_room_${orderId}\``: the room a join or leave message
      names. */
  function RoomFor(orderId: Option<string>, roomName: Option<string>): (room: string)
    ensures TruthyString(roomName) ==> room == roomName.value
    ensures !TruthyString(roomName) ==> room == OrderRoom(Interpolate(orderId))
  {
    StringOr(roomName, OrderRoom(Interpolate(orderId)))
  }

  /** Rooms of different orders are different rooms. */
  lemma OrderRoomInjective(a: string, b: string)
    requires OrderRoom(a) == OrderRoom(b)
    ensures a == b
  {
    var prefix := "order_room_";
    assert a == OrderRoom(a)[|prefix|..];
    assert b == OrderRoom(b)[|prefix|..];
  }

  // ---------------------------------------------------------------------------
  // handshake

  /** `auth.token || headers.authorization?.split(' ')[1]`: the explicit token,
      or else the second space-separated part of the authorization header,
      whatever its first part is. */
  function HandshakeToken(authToken: Option<string>, authorization: Option<string>): (token: Option<string>)
    ensures TruthyString(authToken) ==> token == authToken
    ensures !TruthyString(authToken) && authorization.None? ==> token.None?
    ensures token.Some? ==> token.value != ""
  {
    if TruthyString(authToken) then authToken
    else if authorization.Some? then
      var parts := Split(authorization.value, ' ');
      if |parts| > 1 && parts[1] != "" then Some(parts[1]) else None
    else None
  }

  /** The header's scheme is not checked: any space-free word, a space and a
      token give that token, whatever follows it after another space. */
  lemma HandshakeTokenAnyScheme(scheme: string, t: string, rest: string)
    requires ' ' !in scheme && ' ' !in t && t != ""
    requires rest == "" || rest[0] == ' '
    ensures HandshakeToken(None, Some(scheme + " " + t + rest)) == Some(t)
  {
    assert scheme + " " + t + rest == scheme + [' '] + t + rest;
    SplitAtFirstSeparator(scheme, t + rest, ' ');
    SplitSecondPartOf(scheme, t, rest, ' ');
  }

  /** Without an explicit token, a token comes only from a header made of a
      space-free first word, one space, the token, and then the end of the
      header or another space. */
  lemma HandshakeTokenShape(authToken: Option<string>, h: string)
    requires !TruthyString(authToken) && HandshakeToken(authToken, Some(h)).Some?
    ensures var t := HandshakeToken(authToken, Some(h)).value;
      exists k :: 0 <= k && k + 1 + |t| <= |h| && ' ' !in h[..k] && h[k] == ' ' &&
        h[k + 1..k + 1 + |t|] == t && (k + 1 + |t| == |h| || h[k + 1 + |t|] == ' ')
  {
    var t := HandshakeToken(authToken, Some(h)).value;
    var p := Split(h, ' ');
    SplitSecondPart(h, ' ');
    var k := |p[0]|;
    assert 0 <= k && k + 1 + |t| <= |h| && ' ' !in h[..k] && h[k] == ' ' &&
      h[k + 1..k + 1 + |t|] == t && (k + 1 + |t| == |h| || h[k + 1 + |t|] == ' ');
  }

  /** The identity the handshake gives a connection: anonymous without a token
      or when verification fails; otherwise authenticated with the token's
      `id` and its `roles`, or no roles. */
  function HandshakeIdentity(token: Option<string>, verify: string -> Option<Auth.Claims>): (id: Identity)
    ensures id.Authenticated? <==> token.Some? && verify(token.value).Some?
    ensures id.Authenticated? ==>
      var c := verify(token.value).value;
      id.userId == c.id && id.roles == (if c.roles.Some? then c.roles.value else [])
  {
    if token.None? then Anonymous
    else match verify(token.value)
      case None => Anonymous
      case Some(c) => Authenticated(c.id, if c.roles.Some? then c.roles.value else [])
  }

  /** `!process.env.ALLOW_GUEST_TRACKING` is false for every non-empty value:
      guests are allowed as soon as the variable is set to anything, "false"
      included. */
  predicate GuestTrackingAllowed(env: Option<string>) {
    TruthyString(env)
  }

  lemma GuestFlagIsAnyValue(env: Option<string>)
    ensures GuestTrackingAllowed(env) <==> env.Some? && env.value != ""
    ensures GuestTrackingAllowed(Some("false"))
  {
  }

  /** `{ orderId, ...data }`: the data with the order id added, where a key of
      the data's own overrides it. */
  function Enrich(orderId: string, data: Payload): (p: Payload)
    ensures p.Keys == data.Keys + {"orderId"}
    ensures forall k :: k in data ==> p[k] == data[k]
    ensures "orderId" !in data ==> p["orderId"] == Str(orderId)
  {
    map["orderId" := Str(orderId)] + data
  }

  function UserPayload(id: Identity, now: int): Payload {
    map["userId" := (if id.Authenticated? then OptionalString(id.userId) else Undefined),
        "timestamp" := Time(now)]
  }

  // ---------------------------------------------------------------------------
  // the hub

  /** The socket server: whether it has been initialised, the identity of
      each connection, each room's members, and every event emitted. */
  class Hub {
    var initialized: bool
    var sockets: map<Conn, Identity>
    var rooms: map<string, set<Conn>>
    var outbox: seq<Delivery>
    /** The ALLOW_GUEST_TRACKING environment variable. */
    const allowGuestTracking: Option<string>

    /** Rooms hold connected sockets only; before initialisation there are
        no connections and nothing has been emitted. */
    ghost predicate Valid()
      reads this
    {
      (forall r :: r in rooms ==> rooms[r] <= sockets.Keys) &&
      (!initialized ==> sockets == map[] && rooms == map[] && outbox == [])
    }

    /** The members of a room; a room nobody joined is empty. */
    function Members(room: string): (m: set<Conn>)
      reads this
      ensures room !in rooms ==> m == {}
      ensures Valid() ==> m <= sockets.Keys
    {
      if room in rooms then rooms[room] else {}
    }

    constructor (allowGuestTracking: Option<string>)
      ensures Valid() && !initialized
      ensures this.allowGuestTracking == allowGuestTracking
    {
      initialized, sockets, rooms, outbox := false, map[], map[], [];
      this.allowGuestTracking := allowGuestTracking;
    }

    /** `initializeSocket`: a new server, without connections. */
    method Initialize()
      requires Valid()
      modifies this
      ensures Valid() && initialized
      ensures sockets == map[] && rooms == map[] && outbox == old(outbox)
    {
      initialized, sockets, rooms := true, map[], map[];
    }

    /** `getIO`: the server, or an error before initialisation. */
    function GetIO(): (r: Result<Hub>)
      reads this
      ensures r.Err? <==> !initialized
      ensures r.Err? ==> r.error == ServerError
      ensures r.Ok? ==> r.value == this
    {
      if initialized then Ok(this) else Err(ServerError)
    }

    /** The handshake middleware: every connection is admitted, labelled with
        the identity its token gives. */
    method Connect(c: Conn, authToken: Option<string>, authorization: Option<string>,
                   verify: string -> Option<Auth.Claims>)
      requires Valid() && initialized && c !in sockets
      modifies this
      ensures Valid()
      ensures sockets == old(sockets)[c := HandshakeIdentity(HandshakeToken(authToken, authorization), verify)]
      ensures rooms == old(rooms) && outbox == old(outbox) && initialized
    {
      var token := HandshakeToken(authToken, authorization);
      sockets := sockets[c := HandshakeIdentity(token, verify)];
    }

    /** `join_order_room`: an anonymous connection without guest tracking gets
        an error and joins nothing; otherwise it joins the room, is told so,
        and the room's other members are told someone joined. */
    method JoinOrderRoom(c: Conn, orderId: Option<string>, roomName: Option<string>, now: int)
      requires Valid() && c in sockets
      modifies this
      ensures Valid() && sockets == old(sockets) && initialized == old(initialized)
      ensures var room := RoomFor(orderId, roomName);
        if old(sockets)[c].Anonymous? && !GuestTrackingAllowed(allowGuestTracking) then
          rooms == old(rooms) &&
          outbox == old(outbox) + [Delivery({c}, "error", map["message" := Str(AuthenticationRequired)])]
        else
          rooms == old(rooms)[room := old(Members(room)) + {c}] &&
          outbox == old(outbox) + [
            Delivery({c}, "joined_order_room",
                     map["orderId" := OptionalString(orderId), "roomName" := Str(room),
                         "message" := Str("Successfully joined tracking room")]),
            Delivery(old(Members(room)) - {c}, "user_joined", UserPayload(old(sockets)[c], now))]
    {
      var room := RoomFor(orderId, roomName);
      if sockets[c].Anonymous? && !GuestTrackingAllowed(allowGuestTracking) {
        outbox := outbox + [Delivery({c}, "error", map["message" := Str(AuthenticationRequired)])];
        return;
      }
      var before := Members(room);
      rooms := rooms[room := before + {c}];
      assert Members(room) - {c} == before - {c};
      outbox := outbox + [Delivery({c}, "joined_order_room",
                                   map["orderId" := OptionalString(orderId), "roomName" := Str(room),
                                       "message" := Str("Successfully joined tracking room")])];
      outbox := outbox + [Delivery(Members(room) - {c}, "user_joined", UserPayload(sockets[c], now))];
    }

    /** `leave_order_room`: the connection leaves the room and the remaining
        members are told. */
    method LeaveOrderRoom(c: Conn, orderId: Option<string>, roomName: Option<string>, now: int)
      requires Valid() && c in sockets
      modifies this
      ensures Valid() && sockets == old(sockets) && initialized == old(initialized)
      ensures var room := RoomFor(orderId, roomName);
        rooms == old(rooms)[room := old(Members(room)) - {c}] &&
        outbox == old(outbox) + [Delivery(old(Members(room)) - {c}, "user_left", UserPayload(sockets[c], now))]
    {
      var room := RoomFor(orderId, roomName);
      rooms := rooms[room := Members(room) - {c}];
      outbox := outbox + [Delivery(Members(room), "user_left", UserPayload(sockets[c], now))];
    }

    /** A relay: the message goes to every member of the order's room, the
        sender included when it is one; no membership changes. Any connection
        may relay, authenticated or not. */
    method Relay(c: Conn, orderId: Option<string>, event: string, payload: Payload)
      requires Valid() && c in sockets
      modifies this
      ensures sockets == old(sockets) && rooms == old(rooms) && initialized == old(initialized)
      ensures outbox == old(outbox) + [Delivery(Members(OrderRoom(Interpolate(orderId))), event, payload)]
      ensures Valid()
    {
      outbox := outbox + [Delivery(Members(OrderRoom(Interpolate(orderId))), event, payload)];
    }

    /** `driver_location_update`, relayed as `driver_location` with a time stamp. */
    method DriverLocationUpdate(c: Conn, orderId: Option<string>, lat: Json, lng: Json,
                                speed: Json, heading: Json, now: int)
      requires Valid() && c in sockets
      modifies this
      ensures Valid() && sockets == old(sockets) && rooms == old(rooms) && initialized == old(initialized)
      ensures outbox == old(outbox) + [Delivery(Members(OrderRoom(Interpolate(orderId))), "driver_location",
        map["orderId" := OptionalString(orderId), "lat" := lat, "lng" := lng, "speed" := speed,
            "heading" := heading, "timestamp" := Time(now)])]
    {
      Relay(c, orderId, "driver_location",
            map["orderId" := OptionalString(orderId), "lat" := lat, "lng" := lng, "speed" := speed,
                "heading" := heading, "timestamp" := Time(now)]);
    }

    /** `status_update`, relayed as `order_status` with a time stamp. */
    method StatusUpdate(c: Conn, orderId: Option<string>, status: Json, message: Json, now: int)
      requires Valid() && c in sockets
      modifies this
      ensures Valid() && sockets == old(sockets) && rooms == old(rooms) && initialized == old(initialized)
      ensures outbox == old(outbox) + [Delivery(Members(OrderRoom(Interpolate(orderId))), "order_status",
        map["orderId" := OptionalString(orderId), "status" := status, "message" := message,
            "timestamp" := Time(now)])]
    {
      Relay(c, orderId, "order_status",
            map["orderId" := OptionalString(orderId), "status" := status, "message" := message,
                "timestamp" := Time(now)]);
    }

    /** `eta_update`, relayed under the same name, without a time stamp. */
    method EtaUpdate(c: Conn, orderId: Option<string>, etaStart: Json, etaEnd: Json,
                     distanceMeters: Json, durationSeconds: Json)
      requires Valid() && c in sockets
      modifies this
      ensures Valid() && sockets == old(sockets) && rooms == old(rooms) && initialized == old(initialized)
      ensures outbox == old(outbox) + [Delivery(Members(OrderRoom(Interpolate(orderId))), "eta_update",
        map["orderId" := OptionalString(orderId), "etaStart" := etaStart, "etaEnd" := etaEnd,
            "distanceMeters" := distanceMeters, "durationSeconds" := durationSeconds])]
    {
      Relay(c, orderId, "eta_update",
            map["orderId" := OptionalString(orderId), "etaStart" := etaStart, "etaEnd" := etaEnd,
                "distanceMeters" := distanceMeters, "durationSeconds" := durationSeconds]);
    }

    /** `ping`: a `pong` to the sender alone. */
    method Ping(c: Conn, now: int)
      requires Valid() && c in sockets
      modifies this
      ensures Valid() && sockets == old(sockets) && rooms == old(rooms) && initialized == old(initialized)
      ensures outbox == old(outbox) + [Delivery({c}, "pong", map["timestamp" := Time(now)])]
    {
      outbox := outbox + [Delivery({c}, "pong", map["timestamp" := Time(now)])];
    }

    /** `emitToRoom`: to every member of the room, and nothing at all before
        initialisation. */
    method EmitToRoom(room: string, event: string, data: Payload)
      requires Valid()
      modifies this
      ensures Valid() && sockets == old(sockets) && rooms == old(rooms) && initialized == old(initialized)
      ensures outbox == old(outbox) + (if initialized then [Delivery(Members(room), event, data)] else [])
    {
      if initialized {
        outbox := outbox + [Delivery(Members(room), event, data)];
      }
    }

    /** `emitToOrder`: the data, with the order id added, to the order's room. */
    method EmitToOrder(orderId: string, event: string, data: Payload)
      requires Valid()
      modifies this
      ensures Valid() && sockets == old(sockets) && rooms == old(rooms) && initialized == old(initialized)
      ensures outbox == old(outbox) +
        (if initialized then [Delivery(Members(OrderRoom(orderId)), event, Enrich(orderId, data))] else [])
    {
      EmitToRoom(OrderRoom(orderId), event, Enrich(orderId, data));
    }
  }

  /** An authenticated connection that joins an order's room receives the
      order's status relays until it leaves, and none after. */
  method JoinRelayLeave(hub: Hub, c: Conn, d: Conn, orderId: string, now: int)
    requires hub.Valid() && c in hub.sockets && d in hub.sockets && hub.sockets[c].Authenticated?
    modifies hub
    ensures hub.Valid()
    ensures |hub.outbox| == |old(hub.outbox)| + 5
    ensures c in hub.outbox[|hub.outbox| - 3].to && c !in hub.outbox[|hub.outbox| - 1].to
  {
    hub.JoinOrderRoom(c, Some(orderId), None, now);
    hub.StatusUpdate(d, Some(orderId), Str("on_the_way"), Undefined, now);
    assert c in hub.outbox[|hub.outbox| - 1].to;
    hub.LeaveOrderRoom(c, Some(orderId), None, now);
    hub.StatusUpdate(d, Some(orderId), Str("arriving"), Undefined, now);
  }
}
