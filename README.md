# Session-booking backend: request-handling decision logic

This project models the request handlers of a small session-booking backend. Users register
and log in. Guests book hosts. A booking's host sets its status. Users read and partially
update their own profile. In front of every protected handler, an authentication gate turns
the `Authorization: Bearer <token>` header into an identity `{userId, role}`.

Each handler is a fixed sequence of checks that ends in an HTTP status code (200, 400, 401,
403, 404 or 500), and possibly one write to one of two stores: users and bookings.

The model is organised by source file:

- `UserModel` and `BookingModel` are the two schemas. They hold the enums, the defaults,
  the required fields, and what each collection guarantees (unique `_id`, unique `email`).
- `Store.Database` is the object that holds both collections. Its `Valid()` invariant
  combines both collections' guarantees with one more fact: every booking's host
  reference resolves to a stored user whose role is `host`. The schema does not enforce
  that fact; the handlers keep it, because users are never deleted and no handler changes
  an id or a role.
- `AuthPlugin` is the gate. It holds the pure prefix strip (`BearerToken`), the decision
  (`Gate`), and a `Request` object whose `user` field `Authenticate` sets.
- `AuthRoutes`, `UserRoutes` and `BookingRoutes` are the handlers:
  - Handlers that only read the store (`Login`, `GetSelf`, `ListMyBookings`) are functions
    of the store's contents.
  - Handlers that write (`Register`, `UpdateSelf`, `CreateBooking`, `UpdateStatus`) are
    methods on the `Database`. Each one first runs a pure check function (`RegisterCheck`,
    `UpdateSelfCheck`, `CreateCheck`, `StatusCheck`) that holds the handler's ordered
    checks. The method's contract states the whole new store in terms of that check.
- `Json` is the request body as parsed JSON, plus the schema primitives the validators use.
- `Services.Env` bundles the collaborators that are passed in: the email and date-time
  validators, password hash and compare, and token sign and verify.
- `Scenario.EndToEnd` verifies the end-to-end flow against the contracts alone. A guest and a
  host register. The guest signs in through the gate with the token from their reply and
  books the host (`pending`). The host confirms (200). The guest's own attempt is refused
  (403).

Behaviour the model takes from the code:

- A host that is missing, or a user who is not a host, gives 400 "Host not found", not
  404 (src/routes/booking.ts:38-41).
- Self-booking gives 400; a non-guest caller gives 403. Both checks are modelled.
- `updateStatus` validates the target status before it looks up the booking. So a bad
  status on a missing booking gives 400, not 404.
- Status transitions are permissive, as in the code. Any of `confirmed`, `completed` or
  `cancelled` can follow any status, including `completed` and `cancelled`.
  `StatusCheckIgnoresCurrentStatus` proves that the current status never matters. No
  transition table is added.
- The profile projection also carries `_id`, because a Mongoose `.select(...)` keeps it.

## Model

| member | source | states |
|---|---|---|
| `Json.Member` | src/routes/auth.ts:21-25 | a body member is present exactly when the body is an object with that key, and then it is that key's value |
| `Json.StringMember` | src/routes/auth.ts:8-10 | `z.string()` on a member: succeeds exactly when the member is present and a string, and gives that string |
| `Json.Optional` | src/routes/user.ts:6-10 | `.optional()`: an absent member passes as "absent"; a present one passes exactly when its rule does, with the rule's value |
| `Json.StringItems` | src/routes/user.ts:9 | `z.array(z.string())`: succeeds exactly when every item is a string, and gives those strings in order |
| `Json.StringArray` | src/routes/user.ts:9 | the encoder of a string list: same length, item `i` is the `i`-th string |
| `Json.StringArrayRoundTrip` | src/routes/user.ts:9 | decoding an encoded string list gives the list back |
| `UserModel.NewUser` | src/models/User.ts:17-29 | a created user has the given id, name, email and hash; role defaults to `guest`; no optional profile field; an empty languages array; both timestamps are the creation time |
| `Lookup.FirstIndex` | src/routes/user.ts:20 | a query on one field in insertion order: the position of the first element that satisfies the condition, with none before it, or none exactly when no element satisfies it |
| `UserModel.UserIndex` | src/routes/user.ts:20 | `findById`: the position of the first document with that id, or none exactly when no document has it |
| `UserModel.UserByEmail` | src/routes/auth.ts:27 | `findOne({email})`: the position of the first document with that email, or none exactly when no document has it |
| `UserModel.UserIndexUnique` | src/models/User.ts:17-29 | in a valid store, looking up a stored user's id finds that user |
| `UserModel.UserByEmailUnique` | src/models/User.ts:20 | in a valid store (unique emails), looking up a stored user's email finds that user |
| `UserModel.UserIndexAppend` | src/routes/auth.ts:33-38 | inserting a user does not move the lookup of an id already stored, and finds the new user by its id otherwise |
| `UserModel.UserIndexReplace` | src/routes/user.ts:44 | rewriting a user without changing its id moves no lookup by id |
| `UserModel.UsersValidAppend` | src/routes/auth.ts:27-38 | inserting a user that passed validation, with a new id and a new email, keeps ids and emails unique and required fields present |
| `UserModel.UsersValidReplace` | src/routes/user.ts:44 | rewriting a user while keeping its id, its email and its required fields keeps the store valid |
| `BookingModel.NewBooking` | src/models/SessionBooking.ts:14-26 | a created booking has the given id, host, guest and start time; status defaults to `pending`; both timestamps are the creation time |
| `BookingModel.WithStatus` | src/routes/booking.ts:107-108 | a save after setting the status changes the status and `updatedAt` and no other field |
| `BookingModel.BookingIndex` | src/routes/booking.ts:98 | `findById` on bookings: the position of the booking with that id, or none exactly when no booking has it |
| `BookingModel.BookingIndexReplace` | src/routes/booking.ts:107-108 | rewriting a booking without changing its id moves no lookup by id |
| `Store.HostsResolveAppendUser` | src/routes/auth.ts:33-38 | registering a user keeps every booking's host a stored user with role `host` |
| `Store.HostsResolveReplaceUser` | src/routes/user.ts:44 | a profile update, which changes neither id nor role, keeps every booking's host a stored host |
| `Store.Database.constructor` | src/models/SessionBooking.ts:28-31 | two empty collections satisfy the store invariant |
| `AuthPlugin.BearerToken` | src/plugins/authPlugin.ts:10-15 | a token is found only for a header `"Bearer " + t`, and it is `t`; no token when the header is missing, too short, or lacks the exact case-sensitive prefix |
| `AuthPlugin.BearerRoundTrip` | src/plugins/authPlugin.ts:15 | the token taken from `"Bearer " + t` is exactly `t` |
| `AuthPlugin.Gate` | src/plugins/authPlugin.ts:10-25 | 401 "Missing token" exactly when there is no bearer token; 401 "Invalid token" exactly when verification fails; otherwise the identity is the verified payload of the token in the header |
| `AuthPlugin.GateAcceptsSignedToken` | src/plugins/authPlugin.ts:17-22 | when verification inverts signing, a signed token sent with the prefix passes and attaches exactly the identity it was signed for |
| `AuthPlugin.Request.constructor` | src/types/fastify.d.ts:5-8 | a request arrives with no identity attached |
| `AuthPlugin.Request.Authenticate` | src/plugins/authPlugin.ts:9-26 | on either refusal, the 401 reply is sent and `request.user` is unchanged; on success nothing is sent and `request.user` is the verified `{userId, role}` |
| `AuthRoutes.RegistrationRole` | src/routes/auth.ts:11 | an absent role becomes `guest`; only `host` or `guest` pass, so never `admin` |
| `AuthRoutes.ParseRegistration` | src/routes/auth.ts:7-12 | an accepted body has name of at least 2 characters, a valid email, password of at least 6 characters, and role `host` or `guest` (guest when absent), all taken from the body |
| `AuthRoutes.ParseRegistrationComplete` | src/routes/auth.ts:7-12 | every body carrying a valid registration is accepted with exactly those values, whatever other members it has |
| `AuthRoutes.RegistrationBody` | src/routes/auth.ts:7-12 | the encoded registration carries its four members |
| `AuthRoutes.RegistrationRoundTrip` | src/routes/auth.ts:7-12 | validating an encoded valid registration gives it back |
| `AuthRoutes.ParseCredentials` | src/routes/auth.ts:14-17 | an accepted login body has a valid email and a password of at least 6 characters, taken from the body |
| `AuthRoutes.CredentialsBody` | src/routes/auth.ts:14-17 | the encoded login body carries email and password |
| `AuthRoutes.CredentialsRoundTrip` | src/routes/auth.ts:14-17 | validating an encoded valid login body gives it back |
| `AuthRoutes.ParseCredentialsComplete` | src/routes/auth.ts:14-17 | every body carrying a valid email and a password of at least 6 characters is accepted with exactly those, whatever other members it has |
| `AuthRoutes.ReplyFor` | src/routes/auth.ts:40-49 | the reply carries a token for exactly `{userId: id, role}` and the user's id, name, email and role |
| `AuthRoutes.ReplyHidesHash` | src/routes/auth.ts:40-49 | the register and login reply depends only on id, name, email and role, so it never reveals the hash; its token is issued for exactly `{userId: id, role}` |
| `AuthRoutes.RegisterCheck` | src/routes/auth.ts:21-30 | 400 "Invalid data" exactly when the body is invalid; then 400 "Email already used" exactly when a stored user has the email; on success, the role is not `admin` and no stored user has the email |
| `AuthRoutes.Register` | src/routes/auth.ts:20-51 | every failure leaves both stores unchanged; a success appends exactly one user (name, email, `hash(password)`, requested or default role) and replies with a token for `{userId, role}` and the public fields; emails stay unique |
| `AuthRoutes.Login` | src/routes/auth.ts:53-80 | 400 exactly when the body is invalid; the same 401 "Invalid credentials" for an unknown email and for a wrong password; a success replies for the stored user with that email whose hash the password matches; the store is never written |
| `AuthRoutes.LoginAfterRegister` | src/routes/auth.ts:60-79 | once a user is stored with the hash of a password, logging in with that email and password succeeds and replies for exactly that user |
| `AuthRoutes.EmailStaysUnique` | src/routes/auth.ts:27-30 | a registration with an email already stored is refused with "Email already used" |
| `UserRoutes.ParseProfileUpdate` | src/routes/user.ts:5-11 | an accepted update has each field present exactly when the body has it, taken from the body, and keeps the bounds; a name shorter than 2, a bio longer than 500, or a price outside [0, 1000] is refused |
| `UserRoutes.ParseProfileUpdateComplete` | src/routes/user.ts:5-11 | every object body whose five members are those of an in-bounds update is accepted with that update, whatever other members it has |
| `UserRoutes.ProfileBody` | src/routes/user.ts:5-11 | the encoded update is an object carrying exactly the fields the update sets, each under its own key |
| `UserRoutes.ProfileRoundTrip` | src/routes/user.ts:5-11 | validating the encoding of an in-bounds update gives it back |
| `UserRoutes.Merge` | src/routes/user.ts:42-46 | each present field replaces the stored one and each absent field keeps its value; id, email, role, password hash and creation time never change; `updatedAt` is the update time |
| `UserRoutes.MergeIdempotent` | src/routes/user.ts:44 | applying the same update twice equals applying it once |
| `UserRoutes.BioOnlyUpdate` | src/routes/user.ts:37-46 | a body `{bio}` is accepted, and the merge changes the bio and leaves name, email, role, price, languages and timezone unchanged |
| `UserRoutes.Project` | src/routes/user.ts:20-22 | the selected document carries the user's id, name, email, role, bio, price, languages and timezone as stored |
| `UserRoutes.ProjectHidesHash` | src/routes/user.ts:20-22 | the projection does not depend on the password hash or the timestamps |
| `UserRoutes.GetSelf` | src/routes/user.ts:15-29 | 401 exactly without an identity; 404 exactly when no stored user has the caller's id; otherwise the projection of the caller's document |
| `UserRoutes.UpdateSelfCheck` | src/routes/user.ts:33-50 | 401 exactly without an identity; then 400 exactly when the body breaks a rule; then 404 exactly when the caller is not stored; on success, the caller's position and an in-bounds update |
| `UserRoutes.UpdateSelf` | src/routes/user.ts:32-53 | every failure leaves the store unchanged; a success merges the update into the caller's document only, and replies with its new projection |
| `BookingRoutes.ParseBookingRequest` | src/routes/booking.ts:6-9 | an accepted body has a string `hostId` and a `startTime` string that the date-time validator converts to the given instant |
| `BookingRoutes.ParseBookingRequestComplete` | src/routes/booking.ts:6-9 | every body with a string `hostId` and a `startTime` the date-time validator accepts is accepted with exactly those, whatever other members it has |
| `BookingRoutes.BookingBody` | src/routes/booking.ts:6-9 | the encoded create-booking body carries `hostId` and `startTime` |
| `BookingRoutes.BookingRequestRoundTrip` | src/routes/booking.ts:6-9 | a body with a host id and a valid date-time is accepted with exactly those |
| `BookingRoutes.CreateCheck` | src/routes/booking.ts:21-46 | in order: 401 exactly without an identity; 400 for an invalid body; 400 "You cannot book yourself"; 400 "Host not found" for a missing or non-host user; 403 for a non-guest caller; success exactly when all checks pass |
| `BookingRoutes.NonHostRefused` | src/routes/booking.ts:38-41 | booking anyone who is not a stored host fails with "Host not found", whatever the caller's role |
| `BookingRoutes.GuestNeedNotBeStored` | src/models/SessionBooking.ts:16-17 | the guest reference is not checked: a guest whose id no stored user has may still book a host |
| `BookingRoutes.CreateBooking` | src/routes/booking.ts:17-57 | every failure leaves both stores unchanged; a success appends exactly one `pending` booking with the caller as guest and the requested host and start time; the existing bookings are unchanged |
| `BookingRoutes.Involving` | src/routes/booking.ts:70-72 | contains exactly the stored bookings that the user hosts or attends, each as many times as it is stored |
| `BookingRoutes.InsertByStart` | src/routes/booking.ts:73 | inserting into a list sorted by start time keeps it sorted and adds exactly that booking |
| `BookingRoutes.SortByStart` | src/routes/booking.ts:73 | the result is sorted by ascending start time and is a permutation of the input |
| `BookingRoutes.MyBookings` | src/routes/booking.ts:68-76 | sorted by ascending start time, and a permutation of the bookings the user hosts or attends |
| `BookingRoutes.ListMyBookings` | src/routes/booking.ts:60-78 | 401 without an identity; otherwise exactly the caller's bookings as host or guest, by ascending start time; the store is never written |
| `BookingRoutes.ParseTargetStatus` | src/routes/booking.ts:11-13 | an accepted target status is the body's `status`, and it is never `pending` |
| `BookingRoutes.ParseTargetStatusComplete` | src/routes/booking.ts:11-13 | every body whose `status` is `confirmed`, `completed` or `cancelled` is accepted with that status, whatever other members it has |
| `BookingRoutes.StatusBody` | src/routes/booking.ts:11-13 | the encoded status body carries the status's name |
| `BookingRoutes.TargetStatusRoundTrip` | src/routes/booking.ts:11-13 | `confirmed`, `completed` and `cancelled` are accepted as themselves, and `pending` is refused |
| `BookingRoutes.StatusCheck` | src/routes/booking.ts:85-105 | in order: 401 exactly without an identity; 400 for a bad target status, even for a missing booking; 404 for a missing booking; 403 when the caller is not its host; on success, the booking with that id, hosted by the caller |
| `BookingRoutes.OnlyHostSetsStatus` | src/routes/booking.ts:97-105 | anyone but the booking's host gets 403, the guest and an admin included |
| `BookingRoutes.HostSetsStatus` | src/routes/booking.ts:85-109 | the booking's host, whatever their role, passes every check with any valid target status, aimed at that booking |
| `BookingRoutes.StatusCheckIgnoresCurrentStatus` | src/routes/booking.ts:94-108 | a booking's current status changes no outcome, so every status may follow every other |
| `BookingRoutes.UpdateStatus` | src/routes/booking.ts:81-112 | every failure leaves the store unchanged; a success changes only the status and `updatedAt` of that one booking, and replies with it |
| `Scenario.SignIn` | src/plugins/authPlugin.ts:9-26 | the identity attached to a request with a bearer token is the gate's verdict on that token |
| `Scenario.EndToEnd` | src/routes/booking.ts:17-112 | guest and host register; the guest books the host and gets a `pending` booking; the host confirms it; the guest's own status update gets 403 |

## Left out

- The HTTP framework, the database driver and start-up are left out: route registration, `.lean()`, plugin wrapping, and the connection and listen code in src/server.ts. The two collections are sequences in insertion order. The `/health` route is not modelled.
- The booking and user routes and the gate are modelled as if mounted. src/server.ts mounts only the auth routes.
- Concurrency is not modelled. Each handler runs alone and atomically, so the race between the email check and the insert, and the race between the host check and the insert, cannot happen here.
- Mongoose casts ids to ObjectId, and a malformed id string makes it throw (reply 500). Ids here are arbitrary strings, and a malformed one is simply absent. Casting also makes the 24-digit hexadecimal spelling of an id case-insensitive. The model compares ids as exact strings, so an id spelled in upper case finds no document. The source answers differently for such ids in three places:
  - a guest who books a stored host by the upper-case id gets the booking, where the model replies 400 "Host not found";
  - a host who books their own id in upper case passes the exact-string self-booking check and gets 403, where the model replies 400;
  - the host's `PATCH /bookings/<id>/status` with the upper-case id finds the booking, where the model replies 404.
- New document ids come from the database. Each inserting handler takes the id as the parameter `newId`. If that id is already stored, the create fails with a duplicate key, which gives 500.
- The clock is the parameter `now`. It is not proved to be monotonic, so "`updatedAt` advances" is stated as "`updatedAt` is the time of the save".
- `UpdateStatus` sets `updatedAt` on every successful save. Mongoose skips the write when the new status equals the old one; that case is not modelled.
- bcrypt is an abstract `hash` and `matches`. The random salt is not modelled: the hash is a function of the password.
- JWT signing and verification are abstract `sign` and `verify`. Expiry and signatures are not modelled. `verifyToken`'s body is not part of this model, and src/utils/jwt.ts only wraps a library.
- Zod's email and ISO date-time grammars are abstract predicates. String lengths count Unicode scalar values; JavaScript counts UTF-16 code units, which differs for characters outside the Basic Multilingual Plane.
- JSON numbers are exact reals, so `pricePerSession` has no floating-point rounding.
- The Mongo sort leaves the order of bookings with equal start times unspecified. The model keeps store order for them, as a stable insertion sort does.
- Replies other than the fields named here are not modelled: `__v`, and the framework's 500 body and logging.
- Admin privileges are not modelled because the code grants none.
