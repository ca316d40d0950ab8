/** The address-book request handlers: list, get, create, partial update,
    delete with re-election of a default, set-default and verify, each scoped
    to the addresses of the calling user, over the collection of addresses. */
module AddressController {
  import opened Common
  import opened Address
  import Auth

  /** The fields of a create or update request body; absent ones are None. */
  datatype AddressInput = AddressInput(
    title: Option<string>,
    fullAddress: Option<string>,
    buildingName: Option<string>,
    streetName: Option<string>,
    area: Option<string>,
    city: Option<string>,
    flatNumber: Option<string>,
    floorNumber: Option<string>,
    landmark: Option<string>,
    latitude: Option<real>,
    longitude: Option<real>,
    contactName: Option<string>,
    contactNumber: Option<string>,
    isDefault: Option<bool>,
    addressType: Option<string>,
    deliveryInstructions: Option<string>)

  /** A body with no fields at all. */
  const EmptyInput := AddressInput(None, None, None, None, None, None, None, None, None,
                                   None, None, None, None, None, None, None)

  /** The radius of the nearby search when none is given, in metres. */
  const DefaultMaxDistance: int := 5000

  // ---------------------------------------------------------------------------
  // owner-scoped queries

  /** `find({ userId })`: the caller's addresses, in collection order. */
  function Owned(docs: seq<Address>, caller: UserId): (r: seq<Address>)
    ensures |r| <= |docs|
    ensures forall i :: 0 <= i < |r| ==> r[i].userId == caller
    ensures forall a :: a in r <==> a in docs && a.userId == caller
    ensures forall a :: multiset(r)[a] == if a.userId == caller then multiset(docs)[a] else 0
  {
    if |docs| == 0 then []
    else
      assert docs == [docs[0]] + docs[1..];
      if docs[0].userId == caller then [docs[0]] + Owned(docs[1..], caller)
      else Owned(docs[1..], caller)
  }

  /** The owner filter works address by address: filtering a concatenation
      filters each side and keeps them in order. */
  lemma {:induction false} OwnedAppend(xs: seq<Address>, ys: seq<Address>, caller: UserId)
    ensures Owned(xs + ys, caller) == Owned(xs, caller) + Owned(ys, caller)
    decreases |xs|
  {
    if |xs| > 0 {
      assert (xs + ys)[1..] == xs[1..] + ys;
      OwnedAppend(xs[1..], ys, caller);
    } else {
      assert xs + ys == ys;
    }
  }

  /** `findOne({ _id: id, userId })`: the position of the caller's address with
      that id. */
  function FindOwned(docs: seq<Address>, caller: UserId, id: AddressId): (r: Option<nat>)
    ensures r.Some? ==> r.value < |docs| && docs[r.value].id == id && docs[r.value].userId == caller
    ensures r.None? <==> forall i :: 0 <= i < |docs| ==> !(docs[i].id == id && docs[i].userId == caller)
  {
    if |docs| == 0 then None
    else if docs[0].id == id && docs[0].userId == caller then Some(0)
    else
      match FindOwned(docs[1..], caller, id)
      case Some(k) => Some(k + 1)
      case None => None
  }

  /** `findOne({ userId }).sort({ createdAt: -1 })`: the position of one of the
      caller's most recently created addresses. */
  function MostRecent(docs: seq<Address>, caller: UserId): (r: Option<nat>)
    ensures r.None? <==> forall i :: 0 <= i < |docs| ==> docs[i].userId != caller
    ensures r.Some? ==>
      r.value < |docs| && docs[r.value].userId == caller &&
      forall i :: 0 <= i < |docs| && docs[i].userId == caller ==> docs[i].createdAt <= docs[r.value].createdAt
  {
    if |docs| == 0 then None
    else
      var rest := MostRecent(docs[1..], caller);
      if docs[0].userId != caller then
        if rest.Some? then Some(rest.value + 1) else None
      else if rest.Some? && docs[rest.value + 1].createdAt > docs[0].createdAt then Some(rest.value + 1)
      else Some(0)
  }

  /** The collection without the address at `k`. */
  function Remove(docs: seq<Address>, k: nat): (r: seq<Address>)
    requires k < |docs|
    ensures |r| == |docs| - 1
    ensures forall i :: 0 <= i < k ==> r[i] == docs[i]
    ensures forall i :: k <= i < |r| ==> r[i] == docs[i + 1]
  {
    docs[..k] + docs[k + 1..]
  }

  /** Removing an address keeps the ids distinct and at most one default per
      user. */
  lemma RemoveKeepsInvariants(docs: seq<Address>, k: nat)
    requires k < |docs| && IdsUnique(docs) && AtMostOneDefault(docs)
    ensures IdsUnique(Remove(docs, k)) && AtMostOneDefault(Remove(docs, k))
  {
    var r := Remove(docs, k);
    forall i, j | 0 <= i < |r| && 0 <= j < |r| && i != j
      ensures r[i].id != r[j].id
      ensures r[i].userId == r[j].userId ==> !(r[i].isDefault && r[j].isDefault)
    {
      var i', j' := if i < k then i else i + 1, if j < k then j else j + 1;
      assert r[i] == docs[i'] && r[j] == docs[j'];
    }
  }

  /** Removing a user's default leaves that user without one. */
  lemma RemoveDefaultLeavesNone(docs: seq<Address>, k: nat)
    requires k < |docs| && AtMostOneDefault(docs) && docs[k].isDefault
    ensures forall i :: 0 <= i < |docs| - 1 && Remove(docs, k)[i].userId == docs[k].userId ==>
      !Remove(docs, k)[i].isDefault
  {
    var r := Remove(docs, k);
    forall i | 0 <= i < |r| && r[i].userId == docs[k].userId ensures !r[i].isDefault {
      var i' := if i < k then i else i + 1;
      assert r[i] == docs[i'] && i' != k;
    }
  }

  // ---------------------------------------------------------------------------
  // creation

  /** The fields whose absence makes creation answer 400. */
  predicate RequiredPresent(body: AddressInput) {
    TruthyString(body.title) && TruthyString(body.streetName) && TruthyString(body.area) &&
    TruthyString(body.contactName) && TruthyString(body.contactNumber)
  }

  /** Both coordinates truthy: a coordinate of 0 counts as missing. */
  predicate LocationPresent(body: AddressInput) {
    TruthyNumber(body.latitude) && TruthyNumber(body.longitude)
  }

  /** The document `new Address({...})` builds from a body that passed the
      400 checks. */
  function Draft(caller: UserId, body: AddressInput, id: AddressId, now: int): Address
    requires RequiredPresent(body) && LocationPresent(body)
  {
    var city := StringOr(body.city, "Dubai");
    Address(
      id, caller, body.title.value,
      StringOr(body.fullAddress, body.streetName.value + ", " + body.area.value + ", " + city),
      StringOr(body.buildingName, ""), body.streetName.value, body.area.value, city,
      StringOr(body.flatNumber, ""), StringOr(body.floorNumber, ""), StringOr(body.landmark, ""),
      StoredPoint(body.latitude.value, body.longitude.value),
      body.contactName.value, body.contactNumber.value,
      false, body.isDefault == Some(true),
      StringOr(body.addressType, "apartment"), StringOr(body.deliveryInstructions, ""), now)
  }

  /** The creation defaults: the caller owns it, it is unverified, stamped now,
      stored longitude first; a missing city is Dubai, a missing full address
      is street, area and city, a missing type is an apartment, a missing
      default flag is false, and missing optional strings are empty. */
  lemma DraftDefaults(caller: UserId, body: AddressInput, id: AddressId, now: int)
    requires RequiredPresent(body) && LocationPresent(body)
    ensures var d := Draft(caller, body, id, now);
      d.id == id && d.userId == caller && !d.isVerified && d.createdAt == now &&
      d.coordinates == [body.longitude.value, body.latitude.value] &&
      d.title == body.title.value && d.streetName == body.streetName.value && d.area == body.area.value &&
      d.contactName == body.contactName.value && d.contactNumber == body.contactNumber.value &&
      (!TruthyString(body.city) ==> d.city == "Dubai") &&
      (!TruthyString(body.fullAddress) ==> d.fullAddress == d.streetName + ", " + d.area + ", " + d.city) &&
      (!TruthyString(body.addressType) ==> d.addressType == "apartment") &&
      (body.isDefault != Some(true) ==> !d.isDefault) &&
      (!TruthyString(body.buildingName) ==> d.buildingName == "") &&
      (!TruthyString(body.flatNumber) ==> d.flatNumber == "") &&
      (!TruthyString(body.floorNumber) ==> d.floorNumber == "") &&
      (!TruthyString(body.landmark) ==> d.landmark == "") &&
      (!TruthyString(body.deliveryInstructions) ==> d.deliveryInstructions == "")
  {
  }

  /** A draft passes schema validation exactly when the title and the type are
      in their enums, the phone number has the accepted format, the point is
      on the globe and the instructions fit in 500 characters: the synthesised
      defaults always satisfy the required-string rules. */
  lemma DraftValidity(caller: UserId, body: AddressInput, id: AddressId, now: int, phoneFormat: string -> bool)
    requires RequiredPresent(body) && LocationPresent(body)
    ensures SchemaValid(Draft(caller, body, id, now), phoneFormat) <==>
      body.title.value in Titles && phoneFormat(body.contactNumber.value) &&
      -90.0 <= body.latitude.value <= 90.0 && -180.0 <= body.longitude.value <= 180.0 &&
      StringOr(body.addressType, "apartment") in AddressTypes &&
      |StringOr(body.deliveryInstructions, "")| <= MaxInstructionsLength
  {
    var d := Draft(caller, body, id, now);
    assert d.fullAddress != "" by {
      if !TruthyString(body.fullAddress) {
        assert |d.fullAddress| >= |body.streetName.value|;
      }
    }
    StoredPointValid(body.latitude.value, body.longitude.value);
  }

  /** Without a full address and without flat, floor or building, the address
      synthesised at creation is the formatted address. */
  lemma DraftFullAddressIsFormatted(caller: UserId, body: AddressInput, id: AddressId, now: int)
    requires RequiredPresent(body) && LocationPresent(body)
    requires !TruthyString(body.fullAddress) && !TruthyString(body.flatNumber)
    requires !TruthyString(body.floorNumber) && !TruthyString(body.buildingName)
    ensures FormattedAddress(Draft(caller, body, id, now)) == Draft(caller, body, id, now).fullAddress
  {
    FormattedAddressMinimal(Draft(caller, body, id, now));
  }

  /** The owner the address handlers read, `req.user._id`. The request user
      `protect` builds carries `userId`, `email`, `roles` and `isActive` only,
      so the property is absent. */
  function OwnerAsWritten(u: Auth.RequestUser): Option<UserId> {
    None
  }

  /** Whether `save()` accepts the draft of a body that passed the 400 checks
      when its owner may be absent: the schema requires `userId`. */
  predicate DraftSaves(owner: Option<UserId>, body: AddressInput, now: int, phoneFormat: string -> bool)
    requires RequiredPresent(body) && LocationPresent(body)
  {
    owner.Some? && SchemaValid(Draft(owner.value, body, 0, now), phoneFormat)
  }

  /** As written, no request admitted by `protect` can create an address: the
      owner is absent, so the save is refused and the answer is 500. The
      lemma restates the definition of `OwnerAsWritten`, which always gives no
      owner, against the `userId` requirement in `DraftSaves`. */
  lemma CreateFailsAsWritten(u: Auth.RequestUser, body: AddressInput, now: int, phoneFormat: string -> bool)
    requires RequiredPresent(body) && LocationPresent(body)
    ensures !DraftSaves(OwnerAsWritten(u), body, now, phoneFormat)
  {
  }

  /** With the authenticated user's id as the owner, the draft saves exactly
      when the schema rules on the body's own fields hold. */
  lemma CreateSavesForCaller(u: Auth.RequestUser, body: AddressInput, now: int, phoneFormat: string -> bool)
    requires RequiredPresent(body) && LocationPresent(body)
    ensures DraftSaves(Some(u.userId), body, now, phoneFormat) <==>
      body.title.value in Titles && phoneFormat(body.contactNumber.value) &&
      -90.0 <= body.latitude.value <= 90.0 && -180.0 <= body.longitude.value <= 180.0 &&
      StringOr(body.addressType, "apartment") in AddressTypes &&
      |StringOr(body.deliveryInstructions, "")| <= MaxInstructionsLength
  {
    DraftValidity(u.userId, body, 0, now, phoneFormat);
  }

  // ---------------------------------------------------------------------------
  // partial update

  /** The address after the update handler's assignments: the truthy-guarded
      fields take the body's value only when it is truthy, the fields guarded
      by `!== undefined` whenever it is present, and the point only when both
      coordinates are truthy. */
  function Merged(a: Address, body: AddressInput): Address {
    Address(
      a.id, a.userId,
      StringOr(body.title, a.title),
      StringOr(body.fullAddress, a.fullAddress),
      Given(body.buildingName, a.buildingName),
      StringOr(body.streetName, a.streetName),
      StringOr(body.area, a.area),
      StringOr(body.city, a.city),
      Given(body.flatNumber, a.flatNumber),
      Given(body.floorNumber, a.floorNumber),
      Given(body.landmark, a.landmark),
      if LocationPresent(body) then StoredPoint(body.latitude.value, body.longitude.value) else a.coordinates,
      StringOr(body.contactName, a.contactName),
      StringOr(body.contactNumber, a.contactNumber),
      a.isVerified,
      Given(body.isDefault, a.isDefault),
      StringOr(body.addressType, a.addressType),
      Given(body.deliveryInstructions, a.deliveryInstructions),
      a.createdAt)
  }

  /** `x !== undefined ? x : current`. */
  function Given<T>(o: Option<T>, current: T): T {
    if o.Some? then o.value else current
  }

  /** A record agreeing with `Merged` field by field is `Merged`. */
  lemma MergedByFields(a: Address, body: AddressInput, x: Address)
    requires x.id == a.id
    requires x.userId == a.userId
    requires x.title == StringOr(body.title, a.title)
    requires x.fullAddress == StringOr(body.fullAddress, a.fullAddress)
    requires x.buildingName == Given(body.buildingName, a.buildingName)
    requires x.streetName == StringOr(body.streetName, a.streetName)
    requires x.area == StringOr(body.area, a.area)
    requires x.city == StringOr(body.city, a.city)
    requires x.flatNumber == Given(body.flatNumber, a.flatNumber)
    requires x.floorNumber == Given(body.floorNumber, a.floorNumber)
    requires x.landmark == Given(body.landmark, a.landmark)
    requires x.coordinates == if LocationPresent(body) then StoredPoint(body.latitude.value, body.longitude.value) else a.coordinates
    requires x.contactName == StringOr(body.contactName, a.contactName)
    requires x.contactNumber == StringOr(body.contactNumber, a.contactNumber)
    requires x.isVerified == a.isVerified
    requires x.isDefault == Given(body.isDefault, a.isDefault)
    requires x.addressType == StringOr(body.addressType, a.addressType)
    requires x.deliveryInstructions == Given(body.deliveryInstructions, a.deliveryInstructions)
    requires x.createdAt == a.createdAt
    ensures x == Merged(a, body)
  {
  }

  /** An empty body changes nothing. */
  lemma MergedEmpty(a: Address)
    ensures Merged(a, EmptyInput) == a
  {
  }

  /** Applying the same body twice is applying it once. */
  lemma MergedIdempotent(a: Address, body: AddressInput)
    ensures Merged(Merged(a, body), body) == Merged(a, body)
  {
  }

  /** The update never touches the owner, the id, the verified flag or the
      creation time, and never blanks a required string: a falsy value leaves
      those fields as they were. */
  lemma MergedKeeps(a: Address, body: AddressInput)
    ensures var m := Merged(a, body);
      m.id == a.id && m.userId == a.userId && m.isVerified == a.isVerified && m.createdAt == a.createdAt &&
      (a.title != "" ==> m.title != "") && (a.fullAddress != "" ==> m.fullAddress != "") &&
      (a.streetName != "" ==> m.streetName != "") && (a.area != "" ==> m.area != "") &&
      (a.city != "" ==> m.city != "") && (a.contactName != "" ==> m.contactName != "") &&
      (a.contactNumber != "" ==> m.contactNumber != "")
  {
  }

  /** A field guarded by `!== undefined` takes an empty string when given one,
      unlike a truthy-guarded one; a point with a zero coordinate is ignored. */
  lemma MergedGuards(a: Address, body: AddressInput)
    requires body.buildingName == Some("") && body.streetName == Some("")
    requires body.latitude == Some(0.0)
    ensures Merged(a, body).buildingName == "" && Merged(a, body).streetName == a.streetName
    ensures Merged(a, body).coordinates == a.coordinates
  {
  }

  /** The update handler's assignments to the loaded document, one field at
      a time (in three groups of five). */
  method AssignFields(loaded: Address, body: AddressInput) returns (address: Address)
    ensures address == Merged(loaded, body)
  {
    var title, fullAddress, buildingName, streetName, area := AssignNames(loaded, body);
    var city, flatNumber, floorNumber, landmark, coordinates := AssignPlace(loaded, body);
    var contactName, contactNumber, isDefault, addressType, deliveryInstructions := AssignContact(loaded, body);
    address := loaded.(
      title := title, fullAddress := fullAddress, buildingName := buildingName, streetName := streetName,
      area := area, city := city, flatNumber := flatNumber, floorNumber := floorNumber, landmark := landmark,
      contactName := contactName, contactNumber := contactNumber, isDefault := isDefault,
      addressType := addressType, deliveryInstructions := deliveryInstructions, coordinates := coordinates);
    MergedByFields(loaded, body, address);
  }

  /** The assignments to the title and the street-level parts. */
  method AssignNames(loaded: Address, body: AddressInput)
    returns (title: string, fullAddress: string, buildingName: string, streetName: string, area: string)
    ensures title == StringOr(body.title, loaded.title)
    ensures fullAddress == StringOr(body.fullAddress, loaded.fullAddress)
    ensures buildingName == Given(body.buildingName, loaded.buildingName)
    ensures streetName == StringOr(body.streetName, loaded.streetName)
    ensures area == StringOr(body.area, loaded.area)
  {
    title := loaded.title;
    if TruthyString(body.title) { title := body.title.value; }
    fullAddress := loaded.fullAddress;
    if TruthyString(body.fullAddress) { fullAddress := body.fullAddress.value; }
    buildingName := loaded.buildingName;
    if body.buildingName.Some? { buildingName := body.buildingName.value; }
    streetName := loaded.streetName;
    if TruthyString(body.streetName) { streetName := body.streetName.value; }
    area := loaded.area;
    if TruthyString(body.area) { area := body.area.value; }
  }

  /** The assignments to the city, the flat, floor and landmark, and the point. */
  method AssignPlace(loaded: Address, body: AddressInput)
    returns (city: string, flatNumber: string, floorNumber: string, landmark: string, coordinates: seq<real>)
    ensures city == StringOr(body.city, loaded.city)
    ensures flatNumber == Given(body.flatNumber, loaded.flatNumber)
    ensures floorNumber == Given(body.floorNumber, loaded.floorNumber)
    ensures landmark == Given(body.landmark, loaded.landmark)
    ensures coordinates == if LocationPresent(body) then StoredPoint(body.latitude.value, body.longitude.value) else loaded.coordinates
  {
    city := loaded.city;
    if TruthyString(body.city) { city := body.city.value; }
    flatNumber := loaded.flatNumber;
    if body.flatNumber.Some? { flatNumber := body.flatNumber.value; }
    floorNumber := loaded.floorNumber;
    if body.floorNumber.Some? { floorNumber := body.floorNumber.value; }
    landmark := loaded.landmark;
    if body.landmark.Some? { landmark := body.landmark.value; }
    coordinates := loaded.coordinates;
    if TruthyNumber(body.latitude) && TruthyNumber(body.longitude) {
      coordinates := StoredPoint(body.latitude.value, body.longitude.value);
    }
  }

  /** The assignments to the contact, the default flag, the type and the instructions. */
  method AssignContact(loaded: Address, body: AddressInput)
    returns (contactName: string, contactNumber: string, isDefault: bool, addressType: string, deliveryInstructions: string)
    ensures contactName == StringOr(body.contactName, loaded.contactName)
    ensures contactNumber == StringOr(body.contactNumber, loaded.contactNumber)
    ensures isDefault == Given(body.isDefault, loaded.isDefault)
    ensures addressType == StringOr(body.addressType, loaded.addressType)
    ensures deliveryInstructions == Given(body.deliveryInstructions, loaded.deliveryInstructions)
  {
    contactName := loaded.contactName;
    if TruthyString(body.contactName) { contactName := body.contactName.value; }
    contactNumber := loaded.contactNumber;
    if TruthyString(body.contactNumber) { contactNumber := body.contactNumber.value; }
    isDefault := loaded.isDefault;
    if body.isDefault.Some? { isDefault := body.isDefault.value; }
    addressType := loaded.addressType;
    if TruthyString(body.addressType) { addressType := body.addressType.value; }
    deliveryInstructions := loaded.deliveryInstructions;
    if body.deliveryInstructions.Some? { deliveryInstructions := body.deliveryInstructions.value; }
  }

  // ---------------------------------------------------------------------------
  // the collection and its handlers

  /** The address collection. `phoneFormat` is the contact-number regular
      expression; `nextId` is where fresh document ids start. */
  class AddressBook {
    var docs: seq<Address>
    var nextId: AddressId
    const phoneFormat: string -> bool

    /** Ids are distinct and below `nextId`, every stored address passed
        validation, and no user has two defaults. */
    ghost predicate Valid()
      reads this
    {
      (forall i :: 0 <= i < |docs| ==> docs[i].id < nextId && SchemaValid(docs[i], phoneFormat)) &&
      IdsUnique(docs) && AtMostOneDefault(docs)
    }

    constructor (phoneFormat: string -> bool)
      ensures Valid()
      ensures docs == [] && nextId == 0 && this.phoneFormat == phoneFormat
    {
      docs, nextId := [], 0;
      this.phoneFormat := phoneFormat;
    }

    /** `address.save()`: validation first (a failure is a 500 and nothing is
        written), then the single-default hook, then the write. */
    method Save(a: Address, at: Option<nat>, defaultModified: bool) returns (ok: bool)
      requires Valid() && SaveTarget(docs, a, at) && a.id < nextId
      requires !defaultModified && a.isDefault ==> at.Some? && docs[at.value].isDefault
      modifies this
      ensures Valid() && nextId == old(nextId)
      ensures ok == SchemaValid(a, phoneFormat)
      ensures docs == if ok then SavedDocs(old(docs), a, at, defaultModified) else old(docs)
    {
      if !SchemaValid(a, phoneFormat) {
        return false;
      }
      SaveHookEffect(docs, a, at, defaultModified);
      SaveKeepsIdsUnique(docs, a, at, defaultModified);
      SaveKeepsOneDefault(docs, a, at, defaultModified);
      docs := SavedDocs(docs, a, at, defaultModified);
      ok := true;
    }

    /** The caller's addresses in listing order. */
    function Listing(caller: UserId): (r: seq<Address>)
      reads this
      ensures multiset(r) == multiset(Owned(docs, caller))
      ensures ListOrdered(r)
      ensures forall a :: a in r <==> a in docs && a.userId == caller
    {
      var r := SortForListing(Owned(docs, caller));
      assert forall a :: a in r <==> a in multiset(Owned(docs, caller));
      r
    }

    /** `getUserAddresses`: the caller's addresses, defaults first and newest
        first, each in its JSON form; with both query coordinates present each
        also carries its distance from that point. */
    method ListAddresses(caller: UserId, latitude: Option<string>, longitude: Option<string>,
                         parseFloat: string -> real, distance: (Address, real, real) -> real)
      returns (list: seq<AddressJson>)
      ensures |list| == |Listing(caller)|
      ensures forall i :: 0 <= i < |list| ==>
        list[i] == ToJson(Listing(caller)[i],
          if TruthyString(latitude) && TruthyString(longitude)
          then Some(distance(Listing(caller)[i], parseFloat(latitude.value), parseFloat(longitude.value)))
          else None)
      ensures forall i :: 0 <= i < |list| ==> list[i].userId == caller
      ensures forall i, j :: 0 <= i < j < |list| ==>
        (list[i].isDefault && !list[j].isDefault) ||
        (list[i].isDefault == list[j].isDefault && list[i].createdAt >= list[j].createdAt)
    {
      var addresses := Listing(caller);
      if TruthyString(latitude) && TruthyString(longitude) {
        var lat, lon := parseFloat(latitude.value), parseFloat(longitude.value);
        list := seq(|addresses|, i requires 0 <= i < |addresses| =>
                      ToJson(addresses[i], Some(distance(addresses[i], lat, lon))));
      } else {
        list := seq(|addresses|, i requires 0 <= i < |addresses| => ToJson(addresses[i], None));
      }
      assert forall i :: 0 <= i < |addresses| ==> addresses[i] in addresses;
    }

    /** `getAddressById`: the caller's address with that id, or 404. */
    function GetById(caller: UserId, id: AddressId): (r: Result<Address>)
      reads this
      ensures r.Ok? ==> r.value in docs && r.value.id == id && r.value.userId == caller
      ensures r.Err? ==> r.error == NotFound && forall a :: a in docs ==> !(a.id == id && a.userId == caller)
    {
      match FindOwned(docs, caller, id)
      case Some(k) => Ok(docs[k])
      case None => Err(NotFound)
    }

    /** `findNearbyAddresses`: 400 without both query coordinates; otherwise
        the caller's addresses the geospatial query finds within the radius
        (5000 m unless given). */
    function FindNearby(caller: UserId, latitude: Option<string>, longitude: Option<string>,
                        maxDistance: Option<int>, within: (Address, string, string, int) -> bool)
      : (r: Result<seq<Address>>)
      reads this
      ensures r.Err? <==> !TruthyString(latitude) || !TruthyString(longitude)
      ensures r.Err? ==> r.error == BadRequest
      ensures r.Ok? ==> forall a :: a in r.value <==>
        a in docs && a.userId == caller &&
        within(a, latitude.value, longitude.value, if maxDistance.Some? then maxDistance.value else DefaultMaxDistance)
      ensures r.Ok? ==>
        var radius := if maxDistance.Some? then maxDistance.value else DefaultMaxDistance;
        forall a :: multiset(r.value)[a] ==
          (if a.userId == caller && within(a, latitude.value, longitude.value, radius) then multiset(docs)[a] else 0)
    {
      if !TruthyString(latitude) || !TruthyString(longitude) then Err(BadRequest)
      else
        var radius := if maxDistance.Some? then maxDistance.value else DefaultMaxDistance;
        Ok(Near(Owned(docs, caller), latitude.value, longitude.value, radius, within))
    }

    /** `createAddress`: 400 when a required field or a coordinate is missing
        (nothing created); otherwise the new document is validated and saved,
        becoming the user's only default when it asks to be one. */
    method Create(caller: UserId, body: AddressInput, now: int) returns (r: Result<Address>)
      requires Valid()
      modifies this
      ensures Valid()
      ensures !RequiredPresent(body) || !LocationPresent(body) ==>
        r == Err(BadRequest) && docs == old(docs) && nextId == old(nextId)
      ensures RequiredPresent(body) && LocationPresent(body) ==>
        var d := Draft(caller, body, old(nextId), now);
        nextId == old(nextId) + 1 &&
        (SchemaValid(d, phoneFormat) ==> r == Ok(d) && docs == SavedDocs(old(docs), d, None, true)) &&
        (!SchemaValid(d, phoneFormat) ==> r == Err(ServerError) && docs == old(docs))
    {
      if !TruthyString(body.title) || !TruthyString(body.streetName) || !TruthyString(body.area) ||
         !TruthyString(body.contactName) || !TruthyString(body.contactNumber) {
        return Err(BadRequest);
      }
      if !TruthyNumber(body.latitude) || !TruthyNumber(body.longitude) {
        return Err(BadRequest);
      }
      var address := Draft(caller, body, nextId, now);
      nextId := nextId + 1;
      var ok := Save(address, None, true);
      r := if ok then Ok(address) else Err(ServerError);
    }

    /** `updateAddress`: 404 unless the caller owns an address with that id;
        otherwise the body's fields are assigned one by one, and the result is
        validated and saved. */
    method Update(caller: UserId, id: AddressId, body: AddressInput) returns (r: Result<Address>)
      requires Valid()
      modifies this
      ensures Valid() && nextId == old(nextId)
      ensures FindOwned(old(docs), caller, id).None? ==> r == Err(NotFound) && docs == old(docs)
      ensures FindOwned(old(docs), caller, id).Some? ==>
        var k := FindOwned(old(docs), caller, id).value;
        var m := Merged(old(docs)[k], body);
        (SchemaValid(m, phoneFormat) ==>
          r == Ok(m) && docs == SavedDocs(old(docs), m, Some(k), m.isDefault != old(docs)[k].isDefault)) &&
        (!SchemaValid(m, phoneFormat) ==> r == Err(ServerError) && docs == old(docs))
    {
      var found := FindOwned(docs, caller, id);
      if found.None? {
        return Err(NotFound);
      }
      var k := found.value;
      var address := AssignFields(docs[k], body);
      // Assigning the value a path already holds does not mark it modified.
      var ok := Save(address, Some(k), address.isDefault != docs[k].isDefault);
      r := if ok then Ok(address) else Err(ServerError);
    }

    /** `deleteAddress`: 404 unless the caller owns an address with that id;
        otherwise it is removed, and when it was the default, the caller's most
        recently created remaining address becomes the default. */
    method Delete(caller: UserId, id: AddressId) returns (r: Result<Address>)
      requires Valid()
      modifies this
      ensures Valid() && nextId == old(nextId)
      ensures FindOwned(old(docs), caller, id).None? ==> r == Err(NotFound) && docs == old(docs)
      ensures FindOwned(old(docs), caller, id).Some? ==>
        var k := FindOwned(old(docs), caller, id).value;
        var rest := Remove(old(docs), k);
        r == Ok(old(docs)[k]) &&
        (!old(docs)[k].isDefault || MostRecent(rest, caller).None? ==> docs == rest) &&
        (old(docs)[k].isDefault && MostRecent(rest, caller).Some? ==>
          var n := MostRecent(rest, caller).value;
          docs == rest[n := rest[n].(isDefault := true)])
    {
      var found := FindOwned(docs, caller, id);
      if found.None? {
        return Err(NotFound);
      }
      var k := found.value;
      var removed := docs[k];
      RemoveKeepsInvariants(docs, k);
      if removed.isDefault {
        RemoveDefaultLeavesNone(docs, k);
      }
      docs := Remove(docs, k);
      r := Ok(removed);
      if removed.isDefault {
        ReelectDefault(caller);
      }
    }

    /** The re-election after deleting a default: the caller's most recently
        created address, if any, is made the default and saved. */
    method ReelectDefault(caller: UserId)
      requires Valid()
      requires forall i :: 0 <= i < |docs| && docs[i].userId == caller ==> !docs[i].isDefault
      modifies this
      ensures Valid() && nextId == old(nextId)
      ensures MostRecent(old(docs), caller).None? ==> docs == old(docs)
      ensures MostRecent(old(docs), caller).Some? ==>
        var n := MostRecent(old(docs), caller).value;
        docs == old(docs)[n := old(docs)[n].(isDefault := true)]
      // A caller with an address is left with a default.
      ensures MostRecent(old(docs), caller).Some? ==>
        exists i :: 0 <= i < |docs| && docs[i].userId == caller && docs[i].isDefault
    {
      var next := MostRecent(docs, caller);
      if next.Some? {
        var n := next.value;
        var address := docs[n].(isDefault := true);
        ClearWithoutOtherDefaults(docs, caller, address.id);
        ghost var before := docs;
        var ok := Save(address, Some(n), true);
        assert ok;
        assert docs == before[n := address];
        assert docs[n].userId == caller && docs[n].isDefault;
      }
    }

    /** `setDefaultAddress`: 404 unless the caller owns an address with that
        id; otherwise it becomes the caller's default and, when it was not one
        already, the hook clears the caller's other defaults. */
    method SetDefault(caller: UserId, id: AddressId) returns (r: Result<Address>)
      requires Valid()
      modifies this
      ensures Valid() && nextId == old(nextId)
      ensures FindOwned(old(docs), caller, id).None? ==> r == Err(NotFound) && docs == old(docs)
      ensures FindOwned(old(docs), caller, id).Some? ==>
        var k := FindOwned(old(docs), caller, id).value;
        var a := old(docs)[k].(isDefault := true);
        r == Ok(a) && docs == SavedDocs(old(docs), a, Some(k), !old(docs)[k].isDefault)
      // Afterwards it is the caller's only default.
      ensures r.Ok? ==> forall i :: 0 <= i < |docs| && docs[i].userId == caller ==>
        (docs[i].isDefault <==> docs[i].id == id)
    {
      var found := FindOwned(docs, caller, id);
      if found.None? {
        return Err(NotFound);
      }
      var k := found.value;
      var address := docs[k].(isDefault := true);
      SaveHookEffect(docs, address, Some(k), !docs[k].isDefault);
      var ok := Save(address, Some(k), !docs[k].isDefault);
      assert ok;
      r := Ok(address);
      forall i | 0 <= i < |docs| && docs[i].userId == caller
        ensures docs[i].isDefault <==> docs[i].id == id
      {
        if i != k {
          assert docs[i].id != id;
        }
      }
    }

    /** `verifyAddress`: 404 unless the caller owns an address with that id;
        otherwise only its verified flag is set. */
    method Verify(caller: UserId, id: AddressId) returns (r: Result<Address>)
      requires Valid()
      modifies this
      ensures Valid() && nextId == old(nextId)
      ensures FindOwned(old(docs), caller, id).None? ==> r == Err(NotFound) && docs == old(docs)
      ensures FindOwned(old(docs), caller, id).Some? ==>
        var k := FindOwned(old(docs), caller, id).value;
        var a := old(docs)[k].(isVerified := true);
        r == Ok(a) && docs == old(docs)[k := a]
    {
      var found := FindOwned(docs, caller, id);
      if found.None? {
        return Err(NotFound);
      }
      var k := found.value;
      var address := docs[k].(isVerified := true);
      var ok := Save(address, Some(k), false);
      assert ok;
      r := Ok(address);
    }
  }

  /** The addresses the geospatial query keeps, in order. */
  function Near(s: seq<Address>, latitude: string, longitude: string, radius: int,
                within: (Address, string, string, int) -> bool): (r: seq<Address>)
    ensures forall a :: a in r <==> a in s && within(a, latitude, longitude, radius)
    ensures forall a :: multiset(r)[a] == if within(a, latitude, longitude, radius) then multiset(s)[a] else 0
  {
    if |s| == 0 then []
    else
      assert s == [s[0]] + s[1..];
      if within(s[0], latitude, longitude, radius) then [s[0]] + Near(s[1..], latitude, longitude, radius, within)
      else Near(s[1..], latitude, longitude, radius, within)
  }

  /** The geospatial filter keeps the order of its input: filtering a
      concatenation filters each side. */
  lemma {:induction false} NearAppend(xs: seq<Address>, ys: seq<Address>, latitude: string, longitude: string,
                                      radius: int, within: (Address, string, string, int) -> bool)
    ensures Near(xs + ys, latitude, longitude, radius, within) ==
      Near(xs, latitude, longitude, radius, within) + Near(ys, latitude, longitude, radius, within)
    decreases |xs|
  {
    if |xs| > 0 {
      assert (xs + ys)[1..] == xs[1..] + ys;
      NearAppend(xs[1..], ys, latitude, longitude, radius, within);
    } else {
      assert xs + ys == ys;
    }
  }
}
