# Delivery tracking and address book back end, modelled in Dafny

This project models the delivery back end of a coffee-roastery ordering app. It has four parts:

- **Order tracking.** Each order has one tracking document. The document holds:
  - a status from an eight-stage enum;
  - an append-only timeline of status changes;
  - replaceable staff, driver and customer location slots;
  - an ETA window;
  - the time of the last save.

  The HTTP handlers do the following:
  - read a document, creating it on first use;
  - change the status;
  - push the driver's location;
  - calculate an ETA.

  Each handler loads the document, changes it, saves it, and then broadcasts to the order's socket room.
- **The address book.** Each user has saved delivery addresses. The model covers:
  - the schema rules (enums, required strings, coordinate ranges, the 500-character limit on instructions);
  - the pre-save hook that keeps one default address per user;
  - the formatted one-line address, the type icon, and the JSON view that flips the stored `[lng, lat]` point back;
  - the handlers: list, get, nearby, create, partial update, delete (which re-elects a default), set-default and verify. All of them are scoped to the calling user.
- **Authentication middleware.** This covers:
  - bearer-token extraction;
  - `protect`'s chain of early returns: admin short-circuit, revocation, Firebase fallback, missing or inactive user;
  - `authorize`'s role intersection;
  - `optionalAuth`, which never stops a request.
- **The tracking socket hub.** This covers:
  - the handshake that labels each connection authenticated or anonymous;
  - room names;
  - the guest-tracking gate on joins;
  - the audience of each event: the joiner, the other members, or the whole room;
  - the relays;
  - `emitToRoom`/`emitToOrder` and `getIO`.

How the model is built:

- **Stores are classes over values.** Each store is a class holding values: a `map` of tracking documents, a `seq` of addresses, and the room map with the list of emitted events. The handlers are methods that change that state and state the whole new state in their postconditions.
- **Loaded documents are objects.** A tracking document loaded for change is a `TrackingRecord` object. It is built from the stored value and written back by `Save`.
- **Pure parts are functions.** The ETA arithmetic, the formatted address, the icon, the JSON view, the listing order, token extraction and `authorize` are functions with lemmas.
- **Oracles are parameters.** Foreign computations are function-typed parameters or a class constant:
  - JWT and Firebase verification and the revocation list (`Auth.Verifiers`);
  - the haversine distance;
  - the geospatial `$near` test;
  - `parseFloat` of a query string;
  - the phone-number regular expression.
- **Time is a parameter.** Time is an integer `now` in milliseconds.
- **Truthiness.** JavaScript truthiness is modelled explicitly. `None` and `""` are falsy strings; `None` and `0` are falsy numbers. A `!== undefined` guard is `Given`.

Some behaviours of the code a reader might not expect, all modelled as the code has them:

- Drivers cannot read tracking by their role: only admins and staff can (`trackingController.js:20-23`). As written the check also refuses the order's own customer, because it reads a property `protect` never sets (first row of "## Findings"). `GetOrderTracking` applies the corrected rule, which admits the customer.
- A status update on an order without a document starts from an empty timeline, not from an "Order placed" entry (`trackingController.js:120-126`).
- A refused join emits an `error` event.
- Disconnect cleanup is left to the socket library.
- Coordinates pushed to tracking are not range-checked.

## Model

| member | source | states |
|---|---|---|
| Text.Split | al_marya_rostery/backend/middleware/auth.js:25 | `split(' ')`: at least one part, no part holds the separator, and joining the parts with it gives the input back |
| Auth.ExtractBearer | al_marya_rostery/backend/middleware/auth.js:23-26 | a token exists only for a header starting with "Bearer"; it is non-empty and has no space |
| Auth.BearerRoundTrip | al_marya_rostery/backend/middleware/auth.js:24-25 | a header whose space-free first word starts with "Bearer", then a space, a non-empty token without spaces, and then nothing or another space, yields exactly that token: "Bearer abc def" gives "abc" |
| Auth.BearerTokenShape | al_marya_rostery/backend/middleware/auth.js:24-25 | conversely, a token is always the header's second space-separated word: a space-free first word of at least six characters, one space, the token, then the end or a space |
| Auth.NonBearerHasNoToken | al_marya_rostery/backend/middleware/auth.js:24-33 | a header with any other six-letter scheme has no token, whatever follows |
| Auth.FindById | al_marya_rostery/backend/middleware/auth.js:122 | the user found has that id and is in the collection; none found means no user has the id |
| Auth.FindByFirebase | al_marya_rostery/backend/middleware/auth.js:96-102 | the user found matches the `$or` of Firebase uid, provider id or email; none found means no user matches |
| Auth.Protect | al_marya_rostery/backend/middleware/auth.js:19-149 | no token, a revoked JWT, or a token neither verifier accepts gives 401; Firebase is tried exactly when the JWT check fails; an admin claim gives the fixed admin user with no lookup; otherwise the request proceeds exactly when the looked-up user exists and is active, with that user's fields, and every stop is a 401 |
| Auth.Authorize | al_marya_rostery/backend/middleware/auth.js:174-192 | no user gives 401; a user continues exactly when one required role is among their roles; otherwise 403 |
| Auth.SharesRole | al_marya_rostery/backend/middleware/auth.js:183 | true exactly when a required role is among the user's roles |
| Auth.AuthorizeNothingRequired | al_marya_rostery/backend/middleware/auth.js:183-188 | with no required roles every user is refused with 403 |
| Auth.OptionalAuth | al_marya_rostery/backend/middleware/auth.js:195-241 | never consults Firebase or the revocation list; sets a user only for an admin JWT or an existing active user, with that user's fields |
| OrderTracking.ParseStatus | al_marya_rostery/backend/models/OrderTracking.js:67-81 | a string is accepted exactly when it is one of the eight enum names, and then names the status it yields |
| OrderTracking.ParseStatusName | al_marya_rostery/backend/models/OrderTracking.js:8-17 | every status's name is in the enum and parses back to that status |
| OrderTracking.CastLocation | al_marya_rostery/backend/models/OrderTracking.js:28-43 | a location casts exactly when both `lat` and `lng` are present; `updatedAt` defaults to now; speed and heading carry over |
| OrderTracking.NewDoc | al_marya_rostery/backend/models/OrderTracking.js:60-97 | a new document takes the given fields, status defaults to `preparing`, `isDriverStationary` to false, `lastUpdate` to now, and it has no other locations and no ETA |
| OrderTracking.UpdateStatusDoc | al_marya_rostery/backend/models/OrderTracking.js:106-118 | the status becomes the new one whatever it was, the timeline grows by exactly one entry `{stage, now, message}` with the earlier entries unchanged, the status equals the last stage, and nothing else changes |
| OrderTracking.StatusChangesAppend | al_marya_rostery/backend/models/OrderTracking.js:106-118 | N status changes append exactly N entries, one per change in call order, keep the earlier entries, and end with the last change's status as the last stage |
| OrderTracking.StatusChangesKeepChronology | al_marya_rostery/backend/models/OrderTracking.js:106-112 | with a clock that never runs backwards the timeline stays in time order |
| OrderTracking.LastUpdateIsLatestSave | al_marya_rostery/backend/models/OrderTracking.js:100-103 | after saves at non-decreasing times `lastUpdate` is the last save time, at least every earlier one, and nothing else changed |
| OrderTracking.TrackingRecord.AddTimelineEntry | al_marya_rostery/backend/models/OrderTracking.js:106-112 | appends exactly one entry stamped now and changes nothing else |
| OrderTracking.TrackingRecord.UpdateStatus | al_marya_rostery/backend/models/OrderTracking.js:115-118 | the object's new document is `UpdateStatusDoc` of the old one, so the status matches the last timeline stage |
| OrderTracking.TrackingRecord.PreSave | al_marya_rostery/backend/models/OrderTracking.js:100-103 | every save stamps `lastUpdate` with the save time and changes nothing else |
| TrackingController.Ceil | al_marya_rostery/backend/controllers/trackingController.js:238 | the least integer at or above the argument |
| TrackingController.Round | al_marya_rostery/backend/controllers/trackingController.js:247 | the nearest integer, halves rounded up |
| TrackingController.EtaFor | al_marya_rostery/backend/controllers/trackingController.js:237-249 | the window is 10 minutes wide and opens after the least whole number of minutes covering the drive at 40 km/h; the duration is those minutes in seconds; the distance is the nearest whole metre |
| TrackingController.EtaAtDestination | al_marya_rostery/backend/controllers/trackingController.js:238-249 | at distance 0 the duration and distance are 0 and the window opens now |
| TrackingController.EtaMonotone | al_marya_rostery/backend/controllers/trackingController.js:238-241 | a driver further away never gets a shorter duration or an earlier window |
| TrackingController.OwnerDeniedAsWritten | al_marya_rostery/backend/controllers/trackingController.js:20-23 | as written, the order's own customer is refused |
| TrackingController.AsWrittenIgnoresIdentity | al_marya_rostery/backend/controllers/trackingController.js:20-23 | as written, a present user is refused exactly when they are neither admin nor staff, whoever they are |
| TrackingController.AccessDeniedAsWritten | al_marya_rostery/backend/controllers/trackingController.js:20-23 | the access check as written; stated by `OwnerDeniedAsWritten` and `AsWrittenIgnoresIdentity` |
| TrackingController.AccessDenied | al_marya_rostery/backend/controllers/trackingController.js:19-23 | the corrected access check, used by `GetOrderTracking`; its decision for every request is stated by `AccessRule` |
| TrackingController.AccessRule | al_marya_rostery/backend/controllers/trackingController.js:20-23 | the corrected check admits no-user requests, the customer, admins and staff, and refuses everyone else |
| TrackingController.SeedDoc | al_marya_rostery/backend/controllers/trackingController.js:29-40 | the lazily created document has the order's status or `preparing`, the one entry "Order placed" at the order's creation time, the delivery location or (0, 0), and fails validation exactly when the status or the location is invalid |
| TrackingController.SeedDefaultsToPreparing | al_marya_rostery/backend/controllers/trackingController.js:32-35 | an order without status or location is seeded as `preparing` |
| TrackingController.ValidStatusesAreTheEnum | al_marya_rostery/backend/controllers/trackingController.js:102-113 | the handler's list of valid statuses and the schema's enum accept the same strings |
| TrackingController.JournalAppend | al_marya_rostery/backend/controllers/trackingController.js:129-144 | appending an effect keeps every broadcast after a save of the broadcast's order |
| TrackingController.TrackingService.FindOne | al_marya_rostery/backend/controllers/trackingController.js:27 | null exactly when the order has no document; otherwise a fresh object holding the stored document |
| TrackingController.TrackingService.Save | al_marya_rostery/backend/controllers/trackingController.js:130 | the pre-save stamp, then the document replaces the stored one and the save is journalled |
| TrackingController.TrackingService.BroadcastAfterSave | al_marya_rostery/backend/controllers/trackingController.js:136-144 | emits to the order's room only when the hub is attached, right after that order's save |
| TrackingController.TrackingService.GetOrderTracking | al_marya_rostery/backend/controllers/trackingController.js:5-82 | 404 without an order, 403 when access is denied, the stored document when there is one (a second read creates nothing), otherwise exactly one seeded document created and saved, or 500 when it fails validation |
| TrackingController.TrackingService.UpdateOrderStatus | al_marya_rostery/backend/controllers/trackingController.js:96-150 | 400 with no change for a status outside the eight; otherwise the document (or a new one with an empty timeline) takes the single status change, is saved, the order's status is synced, then `order_status` is broadcast; a new document has exactly the one entry |
| TrackingController.TrackingService.UpdateDriverLocation | al_marya_rostery/backend/controllers/trackingController.js:164-206 | 400 without order id or a coordinate, 404 with nothing created without a document; otherwise the driver slot is replaced as a whole (falsy speed and heading dropped), everything else kept, saved, then `driver_location` broadcast |
| TrackingController.TrackingService.CalculateEta | al_marya_rostery/backend/controllers/trackingController.js:220-270 | 400 without both location objects; when one lacks a coordinate (a NaN distance), 500 with nothing changed if the order has a document, otherwise the ETA with null fields; otherwise the ETA is returned, and stored, saved and broadcast only when the order has a document |
| TrackingController.ReadThenPushScenario | al_marya_rostery/backend/controllers/trackingController.js:27-176 | a driver push for an order without a tracking document is refused with 404; reading the order's tracking creates the document, seeded as `preparing`, and the same push then succeeds with the pushed coordinates |
| Address.SchemaValid | al_marya_rostery/backend/models/Address.js:1-118 | the schema's save-time validation; what it demands of a new address is stated by `AddressController.DraftValidity` |
| Address.StoredPointValid | al_marya_rostery/backend/models/Address.js:64-76 | a point stored longitude first passes the validator exactly when latitude is within ±90 and longitude within ±180 |
| Address.NonEmpty | al_marya_rostery/backend/models/Address.js:155 | `filter(Boolean)`: no empty string survives, and every non-empty string of the input survives; order and multiplicity are `NonEmptyAppend` and `NonEmptySingle` |
| Address.NonEmptyAppend | al_marya_rostery/backend/models/Address.js:155 | filtering a concatenation is the concatenation of the filtered sides, so order and repetitions are kept |
| Address.NonEmptySingle | al_marya_rostery/backend/models/Address.js:155 | a single string survives the filter exactly when it is not empty |
| Address.FormattedAddressIsPieces | al_marya_rostery/backend/models/Address.js:145-156 | `getFormattedAddress` of every address: "Flat n", "Floor n", building, street, area and city, in that order, each only when set, joined with ", "; a repeated value appears each time |
| Address.NonEmptyKeepsNonEmpty | al_marya_rostery/backend/models/Address.js:155 | filtering a list without empty strings leaves it unchanged |
| Address.FormattedAddressComplete | al_marya_rostery/backend/models/Address.js:145-156 | with every part present the address reads "Flat n, Floor n, building, street, area, city" |
| Address.FormattedAddressMinimal | al_marya_rostery/backend/models/Address.js:145-156 | with no flat, floor or building it reads "street, area, city" |
| Address.Icon | al_marya_rostery/backend/models/Address.js:180-188 | apartment, villa and office map to apartment, home and business; any other type to location_on |
| Address.ToJson | al_marya_rostery/backend/models/Address.js:191-200 | latitude is the point's second element and longitude its first; the icon and the optional distance are added; every other stored field is carried over unchanged |
| Address.JsonFlipsPointBack | al_marya_rostery/backend/models/Address.js:193-195 | storing `[lng, lat]` and reading the JSON view gives the original latitude and longitude |
| Address.Insert | al_marya_rostery/backend/controllers/addressController.js:9-12 | inserting into an ordered list adds exactly that address and keeps the order |
| Address.SortForListing | al_marya_rostery/backend/controllers/addressController.js:9-12 | the listing is a permutation of its input, defaults first, then newest first |
| Address.DefaultListedFirst | al_marya_rostery/backend/controllers/addressController.js:9-12 | a list with a default address lists a default first |
| Address.SavedDocs | al_marya_rostery/backend/models/Address.js:131-142 | the collection after a successful save; its effect is stated by `SaveHookEffect` and the two lemmas after it |
| Address.SaveHookEffect | al_marya_rostery/backend/models/Address.js:131-142 | the saved address is at its place; when it is a default whose flag was modified, every other address of that user ends non-default; other users' addresses, and all addresses when the hook does not fire, are unchanged |
| Address.SaveKeepsIdsUnique | al_marya_rostery/backend/models/Address.js:131-142 | saving keeps ids distinct |
| Address.SaveKeepsOneDefault | al_marya_rostery/backend/models/Address.js:130-142 | saving keeps at most one default per user |
| Address.ClearWithoutOtherDefaults | al_marya_rostery/backend/models/Address.js:132-139 | when the user has no other default the hook's update changes nothing |
| AddressController.Owned | al_marya_rostery/backend/controllers/addressController.js:9 | exactly the caller's addresses, each as many times as in the collection |
| AddressController.OwnedAppend | al_marya_rostery/backend/controllers/addressController.js:9 | the owner filter of a concatenation is the concatenation of the filtered sides, so collection order is kept |
| AddressController.FindOwned | al_marya_rostery/backend/controllers/addressController.js:50-53 | the position of an address with that id owned by the caller; none exactly when no such address exists |
| AddressController.MostRecent | al_marya_rostery/backend/controllers/addressController.js:247-249 | one of the caller's addresses with the latest creation time; none exactly when the caller has none |
| AddressController.Remove | al_marya_rostery/backend/controllers/addressController.js:233-236 | the collection without that one address, the rest in order |
| AddressController.RemoveKeepsInvariants | al_marya_rostery/backend/controllers/addressController.js:233-236 | removing keeps ids distinct and at most one default per user |
| AddressController.RemoveDefaultLeavesNone | al_marya_rostery/backend/controllers/addressController.js:233-246 | removing a user's default leaves that user with none |
| AddressController.Draft | al_marya_rostery/backend/controllers/addressController.js:115-135 | the address `createAddress` builds; its fields are stated by `DraftDefaults`, `DraftValidity` and `DraftFullAddressIsFormatted` |
| AddressController.DraftDefaults | al_marya_rostery/backend/controllers/addressController.js:115-135 | the new address belongs to the caller, is unverified, is stamped now, and is stored longitude first; city defaults to Dubai, full address to "street, area, city", type to apartment, default flag to false, optional strings to "" |
| AddressController.DraftValidity | al_marya_rostery/backend/controllers/addressController.js:115-137 | a new address passes validation exactly when title and type are in their enums, the phone matches, the point is on the globe and the instructions fit in 500 characters |
| AddressController.DraftFullAddressIsFormatted | al_marya_rostery/backend/controllers/addressController.js:118 | without full address, flat, floor or building the synthesised full address is the formatted address |
| AddressController.CreateFailsAsWritten | al_marya_rostery/backend/controllers/addressController.js:115-116 | as written, no request admitted by `protect` gets an address saved: the owner is absent |
| AddressController.CreateSavesForCaller | al_marya_rostery/backend/controllers/addressController.js:115-137 | with the caller's id as owner the address saves exactly when the body's schema rules hold |
| AddressController.Merged | al_marya_rostery/backend/controllers/addressController.js:189-211 | the address after `updateAddress`'s assignments; stated by `MergedEmpty`, `MergedIdempotent`, `MergedKeeps`, `MergedGuards` and `AssignFields` |
| AddressController.MergedEmpty | al_marya_rostery/backend/controllers/addressController.js:189-211 | an empty body changes nothing |
| AddressController.MergedIdempotent | al_marya_rostery/backend/controllers/addressController.js:189-211 | applying the same body twice is the same as once |
| AddressController.MergedKeeps | al_marya_rostery/backend/controllers/addressController.js:189-211 | owner, id, verified flag and creation time are never changed, and no required string is blanked |
| AddressController.MergedGuards | al_marya_rostery/backend/controllers/addressController.js:191-211 | an `!== undefined` field takes an empty string, a truthy-guarded one ignores it, and a zero coordinate leaves the point alone |
| AddressController.AssignFields | al_marya_rostery/backend/controllers/addressController.js:189-211 | the field-by-field assignments give exactly `Merged` of the loaded address and the body |
| AddressController.AssignNames | al_marya_rostery/backend/controllers/addressController.js:189-193 | title, full address, street and area change only to truthy values; building whenever given |
| AddressController.AssignPlace | al_marya_rostery/backend/controllers/addressController.js:194-211 | city changes only to a truthy value; flat, floor and landmark whenever given; the point only when both coordinates are truthy |
| AddressController.AssignContact | al_marya_rostery/backend/controllers/addressController.js:198-203 | contact name, number and type change only to truthy values; default flag and instructions whenever given |
| AddressController.AddressBook.Save | al_marya_rostery/backend/models/Address.js:130-142 | validation first (failure writes nothing), then the single-default hook, then the write; ids stay unique and at most one default per user |
| AddressController.AddressBook.Listing | al_marya_rostery/backend/controllers/addressController.js:9-12 | a permutation of the caller's addresses, defaults first, then newest first |
| AddressController.AddressBook.ListAddresses | al_marya_rostery/backend/controllers/addressController.js:7-36 | each listed address in JSON form in listing order, carrying its distance from the query point exactly when both query coordinates are truthy |
| AddressController.AddressBook.GetById | al_marya_rostery/backend/controllers/addressController.js:48-65 | the caller's address with that id, or 404 exactly when there is none |
| AddressController.AddressBook.FindNearby | al_marya_rostery/backend/controllers/addressController.js:340-366 | 400 exactly when a query coordinate is missing; otherwise exactly the caller's addresses within the radius (5000 m by default), each as many times as stored, so the reported count is their number |
| AddressController.AddressBook.Create | al_marya_rostery/backend/controllers/addressController.js:77-143 | 400 with no change when a required field or a coordinate is falsy (0 included); otherwise the draft is validated and saved with a fresh id, clearing the user's other defaults when it is a default, or 500 with no change |
| AddressController.AddressBook.Update | al_marya_rostery/backend/controllers/addressController.js:155-219 | 404 with no change unless the caller owns the id; otherwise the merged address is validated and saved, the hook firing only when the default flag actually changed to true |
| AddressController.AddressBook.Delete | al_marya_rostery/backend/controllers/addressController.js:231-260 | 404 with no change unless the caller owns the id; otherwise the address is removed and, when it was the default, the caller's most recent remaining address becomes the default |
| AddressController.AddressBook.ReelectDefault | al_marya_rostery/backend/controllers/addressController.js:245-255 | the caller's most recent address, if any, is made the default and only that flag changes; a caller with addresses is left with a default |
| AddressController.AddressBook.SetDefault | al_marya_rostery/backend/controllers/addressController.js:272-293 | 404 with no change unless the caller owns the id; otherwise only its default flag is set, and it ends as the caller's only default |
| AddressController.AddressBook.Verify | al_marya_rostery/backend/controllers/addressController.js:305-326 | 404 with no change unless the caller owns the id; otherwise only its verified flag is set |
| AddressController.Near | al_marya_rostery/backend/controllers/addressController.js:349-360 | exactly the addresses the geospatial test keeps, each as many times as in the input |
| AddressController.NearAppend | al_marya_rostery/backend/controllers/addressController.js:349-360 | the geospatial filter of a concatenation is the concatenation of the filtered sides, so input order is kept |
| SocketService.RoomFor | al_marya_rostery/backend/services/socketService.js:51 | a truthy room name is the room; otherwise `order_room_` and the order id |
| SocketService.OrderRoomInjective | al_marya_rostery/backend/services/socketService.js:175 | rooms of different orders are different |
| SocketService.HandshakeToken | al_marya_rostery/backend/services/socketService.js:20 | a truthy explicit token wins; without one and without a header there is no token; never an empty token |
| SocketService.HandshakeTokenAnyScheme | al_marya_rostery/backend/services/socketService.js:20 | any space-free first word, a space, a token without spaces, and then nothing or another space, yields that token, with no Bearer check |
| SocketService.HandshakeTokenShape | al_marya_rostery/backend/services/socketService.js:20 | conversely, without an explicit token a token is always the header's second space-separated word: a space-free first word, one space, the token, then the end or a space |
| SocketService.HandshakeIdentity | al_marya_rostery/backend/services/socketService.js:22-41 | authenticated exactly when a token exists and verifies, then with its `id` and its roles or none |
| SocketService.GuestFlagIsAnyValue | al_marya_rostery/backend/services/socketService.js:55 | guests are allowed for every non-empty value of the variable, "false" included |
| SocketService.Enrich | al_marya_rostery/backend/services/socketService.js:176 | the data's keys plus `orderId`; the data's own values win, the order id fills in otherwise |
| SocketService.Hub.Members | al_marya_rostery/backend/services/socketService.js:97 | a room nobody joined is empty; members are connected sockets |
| SocketService.Hub.Initialize | al_marya_rostery/backend/services/socketService.js:7-15 | the hub becomes initialised with no connections or rooms |
| SocketService.Hub.GetIO | al_marya_rostery/backend/services/socketService.js:159-164 | an error exactly before initialisation, the hub otherwise |
| SocketService.Hub.Connect | al_marya_rostery/backend/services/socketService.js:18-46 | every connection is admitted, labelled with its handshake identity; rooms and events unchanged |
| SocketService.Hub.JoinOrderRoom | al_marya_rostery/backend/services/socketService.js:49-79 | an anonymous socket without guest tracking gets only an `error` and joins nothing; otherwise it joins, gets `joined_order_room`, and the room's other members get `user_joined` |
| SocketService.Hub.LeaveOrderRoom | al_marya_rostery/backend/services/socketService.js:82-91 | the socket leaves the room and the remaining members get `user_left` |
| SocketService.Hub.Relay | al_marya_rostery/backend/services/socketService.js:94-136 | a relay goes to every member of the order's room, sender included, whoever sent it, with no membership change |
| SocketService.Hub.DriverLocationUpdate | al_marya_rostery/backend/services/socketService.js:94-107 | relays `driver_location` with location fields and a time stamp to the order's room |
| SocketService.Hub.StatusUpdate | al_marya_rostery/backend/services/socketService.js:110-121 | relays `order_status` with a time stamp to the order's room |
| SocketService.Hub.EtaUpdate | al_marya_rostery/backend/services/socketService.js:124-136 | relays `eta_update` without a time stamp to the order's room |
| SocketService.Hub.Ping | al_marya_rostery/backend/services/socketService.js:139-141 | a `pong` with a time stamp to the sender alone |
| SocketService.Hub.EmitToRoom | al_marya_rostery/backend/services/socketService.js:167-171 | to every member of the room, and nothing before initialisation |
| SocketService.Hub.EmitToOrder | al_marya_rostery/backend/services/socketService.js:174-177 | the enriched data to the order's room |
| SocketService.JoinRelayLeave | al_marya_rostery/backend/services/socketService.js:49-121 | a joined authenticated socket receives a status relay; after leaving it receives none |

## Left out

- Haversine distance (`trackingController.js:283-301`, `Address.js:158-177`): floating-point trigonometry. The distance is an oracle parameter, and the ETA properties hold, in exact arithmetic, for any distance it returns. Symmetry of the distance is therefore not stated.
- TrackingController.EtaFor: minutes and metres are the exact-real ceiling and rounding of the distance. The source computes `(distance / 40) * 60` and `distance * 1000` in IEEE doubles, whose products can land just above a whole minute or on the other side of a half metre. For 166 km the double product is 249.00000000000003, so the source answers 250 minutes where the model answers 249. The model's "least covering minute" is therefore the exact-arithmetic rule, not always the source's answer at such boundaries.
- Token cryptography: `jwt.verify`, Firebase `verifyIdToken` and `isBlacklisted` are oracles. A thrown verification error is a `None` result.
- Database internals:
  - `populate`;
  - the `$near` query, an oracle `within`, whose ordering of results by distance is not modelled;
  - `findByIdAndUpdate` on the order, recorded only as a journal entry;
  - the sort implementation, beyond the order it promises;
  - schema `trim`;
  - casting errors for malformed ids;
  - database errors, which `protect` turns into 401 and the handlers turn into 500.
- The phone-number regular expression (`Address.js:92`): an oracle predicate.
- `parseFloat` and `parseInt` of request strings. The address query coordinates go through a `parseFloat` oracle. Body coordinates and tracking numbers are taken already parsed. `maxDistance` is taken as an optional integer, so a non-numeric value (NaN) is not modelled.
- Request-body values of the wrong JSON type, for example a non-string title or a non-boolean `isDefault`. The `!== undefined` guards are modelled for absent versus present values only. A JSON `null` is not distinguished from an absent value.
- ISO time strings: times are integer milliseconds.
- HTTP response shaping, the populated driver, staff and address summaries of the tracking read, logging, the module-load secret checks, and the outer 500 catch blocks. Among those: an order whose `user` does not populate (the user was deleted) makes `order.user._id` throw at `trackingController.js:20`, answering 500. The model's order always has an owner id.
- AddressController: the owner of every address operation is a `caller` parameter holding the authenticated user's id. As written, the handlers read `req.user._id`, which `protect` never sets. CreateFailsAsWritten states the consequence for creation. How the database treats the undefined owner in the find queries is not modelled.
- AddressController.MostRecent: when several of the caller's addresses share the latest creation time, the model picks one deterministically (the earliest in collection order). The database's choice among ties is unspecified.
- SocketService: disconnect cleanup, CORS and transports belong to the socket library. The model never removes a connection.
- SocketService.Hub.Initialize: a second initialisation starts a new hub with no connections. The old server's sockets are not modelled.
- SocketService: a message without a payload. Every handler destructures its payload in its parameter list, so a missing payload throws before any handler code runs. In the join handler this happens outside its `try`: the handler's promise is rejected and its `catch` never emits "Failed to join room". The model always receives a payload.
- Concurrency: the source has no locking. The handlers are modelled as atomic steps.
- TrackingController.TrackingService.CalculateEta: the order id is always a string. The source never checks it (`trackingController.js:222`): a body without `orderId` still gets the ETA, and the lookup `findOne({ orderId })` (`trackingController.js:252`) then carries an undefined value. If the database drops that condition, an arbitrary document's ETA is overwritten and broadcast to `order_room_undefined`; if it keeps it as null, nothing matches. Which happens depends on the database driver, so the model takes a present id only. A location object without a coordinate is modelled (a NaN ETA); one whose coordinates are not numbers is not.
- Auth.FindByFirebase: for a Firebase token without an email, the model says the `{ email: decoded.email }` clause matches no user (`auth.js:96-101`). If the database drops the undefined value or turns it into null, that clause can match other users. The model does not capture that.
- Address.SchemaValid: `maxlength: 500` on the instructions (`Address.js:116`) counts UTF-16 code units, while the model counts characters. Text with characters outside the Basic Multilingual Plane, such as 300 emoji, passes here and fails in the source.
- TrackingController.TrackingService.UpdateDriverLocation: `parseFloat` of the pushed numbers is the identity on the parsed inputs.

## Findings

| source | as written | input that shows it | evidently intended | confidence | as-written member | corrected member |
|---|---|---|---|---|---|---|
| al_marya_rostery/backend/controllers/trackingController.js:20-23 | compares `req.user.id`, which the request user built by `protect` never has, with the order's user | the order's own customer with role `customer` asking for their order's tracking gets 403 | the customer is admitted by comparing the request user's id and the order's user id as strings; `req.user.userId` alone is not enough, since it holds the user's ObjectId (`auth.js:143`) and `!==` against a string would still refuse the owner | not executed | TrackingController.OwnerDeniedAsWritten | TrackingController.AccessDenied |
| al_marya_rostery/backend/controllers/addressController.js:115-116 | the new address's owner is `req.user._id`, which the request user built by `protect` never has | any creation request with all required fields and coordinates: the schema's required `userId` refuses the save, giving 500 | the owner is the authenticated user's id | not executed | AddressController.CreateFailsAsWritten | AddressController.AddressBook.Create |
