/** The authentication middleware: `protect`, `authorize` and `optionalAuth`.
    Token verification (JWT signature, Firebase ID tokens, the revocation list)
    is done by foreign libraries; here those are the oracle functions of a
    `Verifiers` value, and what remains is the decision procedure. */
module Auth {
  import opened Common
  import opened Text

  /** The fields of a verified backend JWT that the core reads. `protect` and
      `optionalAuth` read `userId` and `role`; the socket handshake reads `id`
      and `roles`. */
  datatype Claims = Claims(
    userId: Option<string>,
    email: Option<string>,
    role: Option<string>,
    id: Option<string>,
    roles: Option<seq<string>>)

  /** A verified Firebase ID token. */
  datatype FirebaseToken = FirebaseToken(uid: string, email: Option<string>)

  /** A user record of the user collection. */
  datatype User = User(
    id: string,
    email: string,
    firebaseUid: Option<string>,
    providerId: Option<string>,
    roles: seq<string>,
    isActive: bool)

  /** What the middleware stores in `req.user`. */
  datatype RequestUser = RequestUser(userId: string, email: string, roles: seq<string>, isActive: bool)

  /** The foreign verifiers: `jwt` is `jwt.verify` (None when it throws),
      `blacklisted` is `isBlacklisted`, `firebase` is `verifyIdToken`. */
  datatype Verifiers = Verifiers(
    jwt: string -> Option<Claims>,
    blacklisted: string -> bool,
    firebase: string -> Option<FirebaseToken>)

  /** The outside calls a middleware run makes, in order. */
  datatype Step = JwtVerify | BlacklistCheck | FirebaseVerify | UserLookup

  datatype Decision = Proceed(user: RequestUser) | Deny(error: HttpError)

  datatype Gate = Continue | Halt(error: HttpError)

  const AdminUser := RequestUser("admin", "admin", ["admin"], true)

  /** The token of an `Authorization` header: only a header that starts with
      "Bearer" has one, and it is the second space-separated part, when that
      part is not empty. */
  function ExtractBearer(authorization: Option<string>): (token: Option<string>)
    ensures token.Some? ==>
      authorization.Some? && StartsWith(authorization.value, "Bearer") &&
      token.value != "" && ' ' !in token.value
  {
    if authorization.Some? && StartsWith(authorization.value, "Bearer") then
      var parts := Split(authorization.value, ' ');
      if |parts| > 1 && parts[1] != "" then Some(parts[1]) else None
    else None
  }

  /** A header whose first space-separated word starts with "Bearer" yields
      its second word, whatever follows it: "Bearer abc def" yields "abc". */
  lemma BearerRoundTrip(scheme: string, t: string, rest: string)
    requires StartsWith(scheme, "Bearer") && ' ' !in scheme
    requires t != "" && ' ' !in t
    requires rest == "" || rest[0] == ' '
    ensures ExtractBearer(Some(scheme + " " + t + rest)) == Some(t)
  {
    var h := scheme + " " + t + rest;
    assert h == scheme + [' '] + t + rest;
    SplitSecondPartOf(scheme, t, rest, ' ');
    assert h[..6] == scheme[..6];
  }

  /** Conversely, a token comes only from such a header: a first word of at
      least "Bearer"'s length without a space, one space, the token, and then
      the end of the header or another space. */
  lemma BearerTokenShape(h: string)
    requires ExtractBearer(Some(h)).Some?
    ensures var t := ExtractBearer(Some(h)).value;
      exists k :: 6 <= k && k + 1 + |t| <= |h| && ' ' !in h[..k] && h[k] == ' ' &&
        h[k + 1..k + 1 + |t|] == t && (k + 1 + |t| == |h| || h[k + 1 + |t|] == ' ')
  {
    var t := ExtractBearer(Some(h)).value;
    var p := Split(h, ' ');
    SplitSecondPart(h, ' ');
    var k := |p[0]|;
    assert h[..6] == "Bearer";
    assert forall j :: 0 <= j < 6 ==> h[j] == h[..6][j] != ' ';
    assert 6 <= k && k + 1 + |t| <= |h| && ' ' !in h[..k] && h[k] == ' ' &&
      h[k + 1..k + 1 + |t|] == t && (k + 1 + |t| == |h| || h[k + 1 + |t|] == ' ');
  }

  /** Any other scheme gives no token, whatever follows it. */
  lemma NonBearerHasNoToken(scheme: string, rest: string)
    requires |scheme| == 6 && scheme != "Bearer"
    ensures ExtractBearer(Some(scheme + rest)) == None
  {
    assert (scheme + rest)[..6] == scheme;
  }

  predicate IsAdminClaim(userId: Option<string>, role: Option<string>) {
    userId == Some("admin") || role == Some("admin")
  }

  /** `User.findById`: the user with that id, if any. */
  function FindById(users: seq<User>, id: string): (r: Option<User>)
    ensures r.Some? ==> r.value in users && r.value.id == id
    ensures r.None? ==> forall u :: u in users ==> u.id != id
  {
    if |users| == 0 then None
    else if users[0].id == id then Some(users[0])
    else FindById(users[1..], id)
  }

  /** The `$or` query of the Firebase path: a user whose Firebase uid or
      provider id is the token's uid, or whose email is the token's email. */
  predicate FirebaseMatch(u: User, uid: string, email: Option<string>) {
    u.firebaseUid == Some(uid) || u.providerId == Some(uid) || (email.Some? && u.email == email.value)
  }

  function FindByFirebase(users: seq<User>, uid: string, email: Option<string>): (r: Option<User>)
    ensures r.Some? ==> r.value in users && FirebaseMatch(r.value, uid, email)
    ensures r.None? ==> forall u :: u in users ==> !FirebaseMatch(u, uid, email)
  {
    if |users| == 0 then None
    else if FirebaseMatch(users[0], uid, email) then Some(users[0])
    else FindByFirebase(users[1..], uid, email)
  }

  function AsRequestUser(u: User): RequestUser {
    RequestUser(u.id, u.email, u.roles, u.isActive)
  }

  /** What `protect` decoded from a token: the JWT's fields, or those it builds
      from a Firebase token; None when the JWT is revoked or neither verifier
      accepts the token. */
  datatype Decoded = Decoded(userId: Option<string>, email: Option<string>, role: Option<string>, viaFirebase: bool)

  function Decode(t: string, v: Verifiers): Option<Decoded> {
    match v.jwt(t)
    case Some(c) => if v.blacklisted(t) then None else Some(Decoded(c.userId, c.email, c.role, false))
    case None =>
      match v.firebase(t)
      case Some(f) => Some(Decoded(Some(f.uid), f.email, None, true))
      case None => None
  }

  /** The user a non-admin decoded token leads to. */
  function Lookup(k: Decoded, users: seq<User>): Option<User> {
    if k.viaFirebase then
      if k.userId.Some? then FindByFirebase(users, k.userId.value, k.email) else None
    else if TruthyString(k.userId) then FindById(users, k.userId.value)
    else None
  }

  /** `protect`: the early-return chain that either admits the request with a
      `req.user` or answers 401. */
  method Protect(authorization: Option<string>, v: Verifiers, users: seq<User>)
    returns (d: Decision, steps: seq<Step>)
    // No usable bearer token: 401 before any verifier is consulted.
    ensures ExtractBearer(authorization).None? ==> d == Deny(Unauthorized) && steps == []
    // protect never answers anything but 401 when it stops.
    ensures d.Deny? ==> d.error == Unauthorized
    ensures ExtractBearer(authorization).Some? ==>
      var t := ExtractBearer(authorization).value;
      // Firebase is tried exactly when the JWT check fails.
      (FirebaseVerify in steps <==> v.jwt(t).None?) &&
      // A verified but revoked JWT is refused.
      (v.jwt(t).Some? && v.blacklisted(t) ==> d == Deny(Unauthorized)) &&
      // Neither verifier accepts the token.
      (v.jwt(t).None? && v.firebase(t).None? ==> d == Deny(Unauthorized)) &&
      (Decode(t, v).None? ==> d == Deny(Unauthorized)) &&
      (Decode(t, v).Some? ==>
        var k := Decode(t, v).value;
        // Admin short-circuit: no user lookup.
        (IsAdminClaim(k.userId, k.role) ==> d == Proceed(AdminUser) && UserLookup !in steps) &&
        // Otherwise admitted exactly when the user exists and is active, with that user's fields.
        (!IsAdminClaim(k.userId, k.role) ==>
          (d.Proceed? <==> Lookup(k, users).Some? && Lookup(k, users).value.isActive) &&
          (d.Proceed? ==> d.user == AsRequestUser(Lookup(k, users).value))))
  {
    steps := [];
    var token := ExtractBearer(authorization);
    if token.None? {
      d := Deny(Unauthorized);
      return;
    }
    var t := token.value;
    var userId: Option<string>, email: Option<string>, role: Option<string>;
    var viaFirebase := false;
    steps := steps + [JwtVerify];
    var claims := v.jwt(t);
    if claims.Some? {
      steps := steps + [BlacklistCheck];
      if v.blacklisted(t) {
        d := Deny(Unauthorized);
        return;
      }
      userId, email, role := claims.value.userId, claims.value.email, claims.value.role;
    } else {
      steps := steps + [FirebaseVerify];
      var firebase := v.firebase(t);
      if firebase.None? {
        d := Deny(Unauthorized);
        return;
      }
      userId, email, role := Some(firebase.value.uid), firebase.value.email, None;
      viaFirebase := true;
    }

    if IsAdminClaim(userId, role) {
      d := Proceed(AdminUser);
      return;
    }

    var user: Option<User>;
    if viaFirebase {
      steps := steps + [UserLookup];
      user := FindByFirebase(users, userId.value, email);
      if user.None? {
        d := Deny(Unauthorized);
        return;
      }
    } else {
      if !TruthyString(userId) || userId == Some("admin") {
        d := Deny(Unauthorized);
        return;
      }
      steps := steps + [UserLookup];
      user := FindById(users, userId.value);
      if user.None? {
        d := Deny(Unauthorized);
        return;
      }
    }

    if !user.value.isActive {
      d := Deny(Unauthorized);
      return;
    }
    d := Proceed(AsRequestUser(user.value));
  }

  /** `authorize(...roles)`: no user is 401, a user holding none of the
      required roles is 403, anyone else continues. */
  function Authorize(required: seq<string>, user: Option<RequestUser>): (g: Gate)
    ensures user.None? ==> g == Halt(Unauthorized)
    ensures user.Some? ==> (g == Continue <==> exists r :: r in required && r in user.value.roles)
    ensures user.Some? && g != Continue ==> g == Halt(Forbidden)
  {
    if user.None? then Halt(Unauthorized)
    else if SharesRole(required, user.value.roles) then Continue
    else Halt(Forbidden)
  }

  /** `required.some(role => roles.includes(role))`. */
  function SharesRole(required: seq<string>, roles: seq<string>): (b: bool)
    ensures b <==> exists r :: r in required && r in roles
  {
    if |required| == 0 then false
    else (required[0] in roles) || SharesRole(required[1..], roles)
  }

  /** `authorize` with no required roles refuses every user. */
  lemma AuthorizeNothingRequired(user: RequestUser)
    ensures Authorize([], Some(user)) == Halt(Forbidden)
  {
  }

  /** `optionalAuth`: never stops the request. It consults only the JWT
      verifier (no revocation list, no Firebase) and sets `req.user` only for
      an admin JWT or an existing active user. */
  method OptionalAuth(authorization: Option<string>, v: Verifiers, users: seq<User>)
    returns (user: Option<RequestUser>, steps: seq<Step>)
    ensures FirebaseVerify !in steps && BlacklistCheck !in steps
    ensures ExtractBearer(authorization).None? ==> user.None? && steps == []
    ensures ExtractBearer(authorization).Some? ==>
      var t := ExtractBearer(authorization).value;
      (v.jwt(t).None? ==> user.None?) &&
      (v.jwt(t).Some? ==>
        var c := v.jwt(t).value;
        (IsAdminClaim(c.userId, c.role) ==> user == Some(AdminUser) && UserLookup !in steps) &&
        (!IsAdminClaim(c.userId, c.role) ==>
          (user.Some? <==> TruthyString(c.userId) && FindById(users, c.userId.value).Some?
                           && FindById(users, c.userId.value).value.isActive) &&
          (user.Some? ==> user.value == AsRequestUser(FindById(users, c.userId.value).value))))
  {
    user, steps := None, [];
    var token := ExtractBearer(authorization);
    if token.Some? {
      var t := token.value;
      steps := steps + [JwtVerify];
      var claims := v.jwt(t);
      if claims.Some? {
        var c := claims.value;
        if IsAdminClaim(c.userId, c.role) {
          user := Some(AdminUser);
          return;
        }
        if TruthyString(c.userId) && c.userId.value != "admin" {
          steps := steps + [UserLookup];
          var found := FindById(users, c.userId.value);
          if found.Some? && found.value.isActive {
            user := Some(AsRequestUser(found.value));
          }
        }
      }
    }
  }
}
