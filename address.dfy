/** The saved delivery address of a user: its schema rules (enums, required
    fields, coordinate ranges, the length limit on instructions), the
    formatted one-line address, the icon for its type, its JSON view, and the
    order in which a user's addresses are listed. */
module Address {
  import opened Common
  import opened Text

  type AddressId = nat
  type UserId = string

  /** A stored address. `coordinates` is the GeoJSON point, `[lng, lat]`. */
  datatype Address = Address(
    id: AddressId,
    userId: UserId,
    title: string,
    fullAddress: string,
    buildingName: string,
    streetName: string,
    area: string,
    city: string,
    flatNumber: string,
    floorNumber: string,
    landmark: string,
    coordinates: seq<real>,
    contactName: string,
    contactNumber: string,
    isVerified: bool,
    isDefault: bool,
    addressType: string,
    deliveryInstructions: string,
    createdAt: int)

  const Titles: set<string> := {"Home", "Work", "Other"}
  const AddressTypes: set<string> := {"apartment", "villa", "office", "other"}
  const MaxInstructionsLength: nat := 500

  /** The coordinates validator: a pair whose first element (longitude) is in
      [-180, 180] and whose second (latitude) is in [-90, 90]. */
  predicate CoordinatesValid(c: seq<real>) {
    |c| == 2 && -180.0 <= c[0] <= 180.0 && -90.0 <= c[1] <= 90.0
  }

  /** Storage order of a point: longitude first. */
  function StoredPoint(latitude: real, longitude: real): seq<real> {
    [longitude, latitude]
  }

  /** A point given as latitude and longitude passes the validator exactly
      when the latitude is within +-90 and the longitude within +-180; the
      stored pair reads them back in the flipped positions. */
  lemma StoredPointValid(latitude: real, longitude: real)
    ensures CoordinatesValid(StoredPoint(latitude, longitude)) <==>
      -90.0 <= latitude <= 90.0 && -180.0 <= longitude <= 180.0
    ensures StoredPoint(latitude, longitude)[1] == latitude && StoredPoint(latitude, longitude)[0] == longitude
  {
  }

  /** Everything `save()` validates before writing: the enums, the required
      strings (Mongoose refuses an empty string for a required one), the
      coordinates, the contact number format (an oracle for the regular
      expression), and the length limit on the instructions. */
  predicate SchemaValid(a: Address, phoneFormat: string -> bool) {
    a.title in Titles &&
    a.fullAddress != "" && a.streetName != "" && a.area != "" && a.city != "" &&
    a.contactName != "" && a.contactNumber != "" && phoneFormat(a.contactNumber) &&
    CoordinatesValid(a.coordinates) &&
    a.addressType in AddressTypes &&
    |a.deliveryInstructions| <= MaxInstructionsLength
  }

  // ---------------------------------------------------------------------------
  // getFormattedAddress

  /** `parts.filter(Boolean)`: the non-empty strings, in order. */
  function NonEmpty(parts: seq<string>): (r: seq<string>)
    ensures |r| <= |parts|
    ensures forall i :: 0 <= i < |r| ==> r[i] != ""
    ensures forall x :: x in r <==> x in parts && x != ""
  {
    if |parts| == 0 then []
    else if parts[0] == "" then NonEmpty(parts[1..])
    else [parts[0]] + NonEmpty(parts[1..])
  }

  /** One part of the formatted address: the field after its prefix when the
      field is set, nothing otherwise. */
  function Piece(prefix: string, field: string): seq<string> {
    if field == "" then [] else [prefix + field]
  }

  /** The pushed parts, before the filter: flat, floor and building only when
      set; street, area and city always. */
  function AddressParts(a: Address): seq<string> {
    Piece("Flat ", a.flatNumber) + Piece("Floor ", a.floorNumber) + Piece("", a.buildingName) +
    [a.streetName, a.area, a.city]
  }

  function FormattedAddress(a: Address): string {
    Join(NonEmpty(AddressParts(a)), ", ")
  }

  /** The filter works element by element: filtering a concatenation
      filters each side and keeps them in order. */
  lemma {:induction false} NonEmptyAppend(xs: seq<string>, ys: seq<string>)
    ensures NonEmpty(xs + ys) == NonEmpty(xs) + NonEmpty(ys)
    decreases |xs|
  {
    if |xs| > 0 {
      assert (xs + ys)[1..] == xs[1..] + ys;
      NonEmptyAppend(xs[1..], ys);
    } else {
      assert xs + ys == ys;
    }
  }

  /** A single part survives the filter exactly when it is not empty. */
  lemma NonEmptySingle(x: string)
    ensures NonEmpty([x]) == (if x == "" then [] else [x])
    ensures NonEmpty([x]) == Piece("", x)
  {
    assert [x][1..] == [];
    assert "" + x == x;
  }

  /** The formatted address of any address: flat, floor, building, street,
      area and city, in that order, each one only when set, joined with ", ".
      An area equal to the city appears twice. */
  lemma FormattedAddressIsPieces(a: Address)
    ensures FormattedAddress(a) ==
      Join(Piece("Flat ", a.flatNumber) + Piece("Floor ", a.floorNumber) + Piece("", a.buildingName) +
           Piece("", a.streetName) + Piece("", a.area) + Piece("", a.city), ", ")
  {
    var head := Piece("Flat ", a.flatNumber) + Piece("Floor ", a.floorNumber) + Piece("", a.buildingName);
    assert AddressParts(a) == head + [a.streetName] + [a.area] + [a.city];
    NonEmptyKeepsNonEmpty(head);
    NonEmptyAppend(head + [a.streetName] + [a.area], [a.city]);
    NonEmptyAppend(head + [a.streetName], [a.area]);
    NonEmptyAppend(head, [a.streetName]);
    NonEmptySingle(a.streetName);
    NonEmptySingle(a.area);
    NonEmptySingle(a.city);
  }

  /** With every part present the address reads flat, floor, building,
      street, area, city. */
  lemma FormattedAddressComplete(a: Address)
    requires a.flatNumber != "" && a.floorNumber != "" && a.buildingName != ""
    requires a.streetName != "" && a.area != "" && a.city != ""
    ensures var sep := ", ";
      FormattedAddress(a) ==
        ("Flat " + a.flatNumber) + (sep + (("Floor " + a.floorNumber) + (sep + (a.buildingName + (sep +
        (a.streetName + (sep + (a.area + (sep + a.city)))))))))
  {
    var sep := ", ";
    var p := AddressParts(a);
    assert "" + a.buildingName == a.buildingName;
    assert p == ["Flat " + a.flatNumber, "Floor " + a.floorNumber, a.buildingName, a.streetName, a.area, a.city];
    assert NonEmpty(p) == p by {
      NonEmptyKeepsNonEmpty(p);
    }
    JoinCons(a.area, [a.city], sep);
    assert [a.area] + [a.city] == [a.area, a.city];
    JoinCons(a.streetName, [a.area, a.city], sep);
    assert [a.streetName] + [a.area, a.city] == [a.streetName, a.area, a.city];
    JoinCons(a.buildingName, [a.streetName, a.area, a.city], sep);
    assert [a.buildingName] + [a.streetName, a.area, a.city] == p[2..];
    JoinCons("Floor " + a.floorNumber, p[2..], sep);
    assert ["Floor " + a.floorNumber] + p[2..] == p[1..];
    JoinCons("Flat " + a.flatNumber, p[1..], sep);
    assert ["Flat " + a.flatNumber] + p[1..] == p;
  }

  /** The formatted address of an address with only street, area and city is
      the full address that creating it synthesises. */
  lemma FormattedAddressMinimal(a: Address)
    requires a.flatNumber == "" && a.floorNumber == "" && a.buildingName == ""
    requires a.streetName != "" && a.area != "" && a.city != ""
    ensures FormattedAddress(a) == a.streetName + ", " + a.area + ", " + a.city
  {
    var p := AddressParts(a);
    assert p == [a.streetName, a.area, a.city];
    NonEmptyKeepsNonEmpty(p);
    assert p[1..][1..] == [a.city];
    assert Join(p[1..], ", ") == a.area + ", " + a.city;
  }

  /** Filtering a list without empty strings leaves it as it is. */
  lemma {:induction false} NonEmptyKeepsNonEmpty(parts: seq<string>)
    requires forall i :: 0 <= i < |parts| ==> parts[i] != ""
    ensures NonEmpty(parts) == parts
  {
    if |parts| > 0 {
      NonEmptyKeepsNonEmpty(parts[1..]);
    }
  }

  // ---------------------------------------------------------------------------
  // icon and toJSON

  /** The `icon` virtual. */
  function Icon(addressType: string): (icon: string)
    ensures addressType == "apartment" ==> icon == "apartment"
    ensures addressType == "villa" ==> icon == "home"
    ensures addressType == "office" ==> icon == "business"
    ensures addressType !in {"apartment", "villa", "office"} ==> icon == "location_on"
  {
    if addressType == "apartment" then "apartment"
    else if addressType == "villa" then "home"
    else if addressType == "office" then "business"
    else "location_on"
  }

  /** The JSON form of an address: every stored field except the GeoJSON
      location (and the version key, which the model does not carry), plus the
      `latitude`/`longitude` read back out of the point, the `icon` virtual,
      and the distance from the caller when the list was asked for one. */
  datatype AddressJson = AddressJson(
    id: AddressId, userId: UserId, title: string, fullAddress: string, buildingName: string,
    streetName: string, area: string, city: string, flatNumber: string, floorNumber: string,
    landmark: string, contactName: string, contactNumber: string, isVerified: bool,
    isDefault: bool, addressType: string, deliveryInstructions: string, createdAt: int,
    latitude: Json, longitude: Json, icon: string, distanceFromUser: Option<real>)

  /** `coordinates[i]`, undefined past the end. */
  function CoordinateAt(c: seq<real>, i: nat): Json {
    if i < |c| then Num(c[i]) else Undefined
  }

  function ToJson(a: Address, distanceFromUser: Option<real>): (j: AddressJson)
    ensures j.latitude == CoordinateAt(a.coordinates, 1) && j.longitude == CoordinateAt(a.coordinates, 0)
    ensures j.icon == Icon(a.addressType) && j.distanceFromUser == distanceFromUser
    ensures j.id == a.id && j.userId == a.userId && j.isDefault == a.isDefault && j.createdAt == a.createdAt
    ensures j.title == a.title && j.fullAddress == a.fullAddress && j.landmark == a.landmark
    ensures j.buildingName == a.buildingName && j.streetName == a.streetName && j.area == a.area && j.city == a.city
    ensures j.flatNumber == a.flatNumber && j.floorNumber == a.floorNumber
    ensures j.contactName == a.contactName && j.contactNumber == a.contactNumber
    ensures j.addressType == a.addressType && j.isVerified == a.isVerified
    ensures j.deliveryInstructions == a.deliveryInstructions
  {
    AddressJson(a.id, a.userId, a.title, a.fullAddress, a.buildingName, a.streetName, a.area,
                a.city, a.flatNumber, a.floorNumber, a.landmark, a.contactName, a.contactNumber,
                a.isVerified, a.isDefault, a.addressType, a.deliveryInstructions, a.createdAt,
                CoordinateAt(a.coordinates, 1), CoordinateAt(a.coordinates, 0),
                Icon(a.addressType), distanceFromUser)
  }

  /** Storing a point as `[lng, lat]` and reading it through the JSON view gives
      the original latitude and longitude back. */
  lemma JsonFlipsPointBack(a: Address, latitude: real, longitude: real, d: Option<real>)
    requires a.coordinates == StoredPoint(latitude, longitude)
    ensures ToJson(a, d).latitude == Num(latitude) && ToJson(a, d).longitude == Num(longitude)
  {
  }

  // ---------------------------------------------------------------------------
  // listing order: default first, then newest first

  /** `sort({ isDefault: -1, createdAt: -1 })`: `a` may come before `b`. */
  predicate ListedBefore(a: Address, b: Address) {
    (a.isDefault && !b.isDefault) || (a.isDefault == b.isDefault && a.createdAt >= b.createdAt)
  }

  predicate ListOrdered(s: seq<Address>) {
    forall i, j :: 0 <= i < j < |s| ==> ListedBefore(s[i], s[j])
  }

  /** Inserting into an ordered list keeps it ordered and adds exactly `x`. */
  function Insert(x: Address, s: seq<Address>): (r: seq<Address>)
    requires ListOrdered(s)
    ensures multiset(r) == multiset(s) + multiset{x}
    ensures ListOrdered(r)
  {
    if |s| == 0 then [x]
    else if ListedBefore(x, s[0]) then
      PrependOrdered(x, s);
      [x] + s
    else
      var tail := Insert(x, s[1..]);
      assert s == [s[0]] + s[1..];
      assert ListOrdered([s[0]] + tail) by {
        forall k | 0 <= k < |tail| ensures ListedBefore(s[0], tail[k]) {
          assert tail[k] in multiset(tail);
          HeadBeforeMember(s, tail[k]);
        }
        PrependOrdered(s[0], tail);
      }
      [s[0]] + tail
  }

  /** An ordered list stays ordered with an element in front that may come
      before each of its elements. */
  lemma PrependOrdered(x: Address, s: seq<Address>)
    requires ListOrdered(s)
    requires |s| > 0 ==> ListedBefore(x, s[0])
    ensures ListOrdered([x] + s)
  {
    var r := [x] + s;
    forall i, j | 0 <= i < j < |r| ensures ListedBefore(r[i], r[j]) {
      if i == 0 && j > 1 {
        assert ListedBefore(s[0], s[j - 1]);
      }
    }
  }

  /** The head of an ordered list may come before every element of the list. */
  lemma HeadBeforeMember(s: seq<Address>, y: Address)
    requires ListOrdered(s) && |s| > 0
    requires y in multiset(s[1..]) || !ListedBefore(y, s[0])
    ensures ListedBefore(s[0], y)
  {
    if y in multiset(s[1..]) {
      var m :| 0 <= m < |s[1..]| && s[1..][m] == y;
      assert s[m + 1] == y;
    }
  }

  /** The user's addresses in listing order: the same addresses, ordered. */
  function SortForListing(s: seq<Address>): (r: seq<Address>)
    ensures multiset(r) == multiset(s)
    ensures ListOrdered(r)
  {
    if |s| == 0 then []
    else
      assert s == [s[0]] + s[1..];
      Insert(s[0], SortForListing(s[1..]))
  }

  /** A default address, if any, is listed first. */
  lemma DefaultListedFirst(s: seq<Address>, k: nat)
    requires k < |s| && s[k].isDefault
    ensures SortForListing(s)[0].isDefault
  {
    var r := SortForListing(s);
    assert s[k] in multiset(r);
    var m :| 0 <= m < |r| && r[m] == s[k];
    if m > 0 {
      assert ListedBefore(r[0], r[m]);
    }
  }

  // ---------------------------------------------------------------------------
  // the collection and the single-default pre-save hook

  predicate IdsUnique(docs: seq<Address>) {
    forall i, j :: 0 <= i < |docs| && 0 <= j < |docs| && i != j ==> docs[i].id != docs[j].id
  }

  /** No user has two default addresses. */
  predicate AtMostOneDefault(docs: seq<Address>) {
    forall i, j :: 0 <= i < |docs| && 0 <= j < |docs| && i != j && docs[i].userId == docs[j].userId ==>
      !(docs[i].isDefault && docs[j].isDefault)
  }

  /** The hook's `updateMany`: every address of `userId` other than `id` loses
      its default flag. */
  function ClearOtherDefaults(docs: seq<Address>, userId: UserId, id: AddressId): seq<Address> {
    seq(|docs|, i requires 0 <= i < |docs| =>
      if docs[i].userId == userId && docs[i].id != id then docs[i].(isDefault := false) else docs[i])
  }

  /** Where a saved document is written: over the loaded one at `at`, or
      appended when it is new. */
  predicate SaveTarget(docs: seq<Address>, a: Address, at: Option<nat>) {
    match at
    case Some(k) => k < |docs| && docs[k].id == a.id && docs[k].userId == a.userId
    case None => forall i :: 0 <= i < |docs| ==> docs[i].id != a.id
  }

  function WrittenAt(docs: seq<Address>, at: Option<nat>): nat {
    if at.Some? then at.value else |docs|
  }

  /** The collection after `a.save()` succeeds: the pre-save hook runs when the
      address is a default whose flag was modified, then the document is
      written. */
  function SavedDocs(docs: seq<Address>, a: Address, at: Option<nat>, defaultModified: bool): seq<Address>
    requires SaveTarget(docs, a, at)
  {
    var cleared := if a.isDefault && defaultModified then ClearOtherDefaults(docs, a.userId, a.id) else docs;
    if at.Some? then cleared[at.value := a] else cleared + [a]
  }

  /** What saving does to the collection: the document is at its place; when
      the hook runs, every other address of the same user ends non-default;
      other users' addresses, and everything when the hook does not run, are
      left as they were. */
  lemma SaveHookEffect(docs: seq<Address>, a: Address, at: Option<nat>, defaultModified: bool)
    requires SaveTarget(docs, a, at) && IdsUnique(docs)
    ensures var r := SavedDocs(docs, a, at, defaultModified);
      var p := WrittenAt(docs, at);
      |r| == (if at.Some? then |docs| else |docs| + 1) && r[p] == a &&
      forall i :: 0 <= i < |docs| && i != p ==>
        r[i] == (if a.isDefault && defaultModified && docs[i].userId == a.userId
                 then docs[i].(isDefault := false) else docs[i])
  {
    var r := SavedDocs(docs, a, at, defaultModified);
    var p := WrittenAt(docs, at);
    forall i | 0 <= i < |docs| && i != p
      ensures r[i] == (if a.isDefault && defaultModified && docs[i].userId == a.userId
                       then docs[i].(isDefault := false) else docs[i])
    {
      assert docs[i].id != a.id;
    }
  }

  /** Saving keeps the ids distinct. */
  lemma SaveKeepsIdsUnique(docs: seq<Address>, a: Address, at: Option<nat>, defaultModified: bool)
    requires SaveTarget(docs, a, at) && IdsUnique(docs)
    ensures IdsUnique(SavedDocs(docs, a, at, defaultModified))
  {
    SaveHookEffect(docs, a, at, defaultModified);
  }

  /** Saving keeps at most one default per user, provided a default whose flag
      was not modified was already the default. */
  lemma SaveKeepsOneDefault(docs: seq<Address>, a: Address, at: Option<nat>, defaultModified: bool)
    requires SaveTarget(docs, a, at) && IdsUnique(docs) && AtMostOneDefault(docs)
    requires !defaultModified && a.isDefault ==> at.Some? && docs[at.value].isDefault
    ensures AtMostOneDefault(SavedDocs(docs, a, at, defaultModified))
  {
    var r := SavedDocs(docs, a, at, defaultModified);
    var p := WrittenAt(docs, at);
    SaveHookEffect(docs, a, at, defaultModified);
    forall i, j | 0 <= i < |r| && 0 <= j < |r| && i != j && r[i].userId == r[j].userId
      ensures !(r[i].isDefault && r[j].isDefault)
    {
      if i != p && j != p {
        assert r[i].isDefault ==> docs[i].isDefault;
        assert r[j].isDefault ==> docs[j].isDefault;
      } else if i == p {
        assert r[j].isDefault ==> docs[j].isDefault;
      } else {
        assert r[i].isDefault ==> docs[i].isDefault;
      }
    }
  }

  /** When no other address of the user is a default, the hook changes nothing. */
  lemma ClearWithoutOtherDefaults(docs: seq<Address>, userId: UserId, id: AddressId)
    requires forall i :: 0 <= i < |docs| && docs[i].userId == userId && docs[i].id != id ==> !docs[i].isDefault
    ensures ClearOtherDefaults(docs, userId, id) == docs
  {
    var r := ClearOtherDefaults(docs, userId, id);
    forall i | 0 <= i < |docs| ensures r[i] == docs[i] {
      if docs[i].userId == userId && docs[i].id != id {
        assert docs[i].(isDefault := false) == docs[i];
      }
    }
  }
}
