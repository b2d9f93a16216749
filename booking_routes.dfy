/** The booking handlers: a guest books a host, anyone lists the bookings they take part
    in, and a booking's host sets its status. */
module BookingRoutes {
  import opened Wrappers
  import opened Json
  import opened UserModel
  import opened BookingModel
  import opened Services
  import opened Store

  const SelfBooking := Failure(400, "You cannot book yourself")
  const HostNotFound := Failure(400, "Host not found")
  const GuestsOnly := Failure(403, "Only guests can create bookings")
  const BookingNotFound := Failure(404, "Booking not found")
  const NotAllowed := Failure(403, "Not allowed")

  // ---------------------------------------------------------------- create

  /** A validated create-booking body, with the start time already converted to an instant. */
  datatype BookingRequest = BookingRequest(hostId: Id, startTime: int)

  /** `createBookingSchema.safeParse(body)` and `new Date(startTime)`: a string `hostId`
      and an ISO date-time `startTime`. */
  function ParseBookingRequest(body: Json, parseDateTime: string -> Option<int>): (r: Option<BookingRequest>)
    ensures r.Some? ==> Member(body, "hostId") == Some(JString(r.value.hostId))
    ensures r.Some? ==> exists t :: Member(body, "startTime") == Some(JString(t)) && parseDateTime(t) == Some(r.value.startTime)
  {
    match (StringMember(body, "hostId"), StringMember(body, "startTime"))
    case (Some(hostId), Some(t)) =>
      (match parseDateTime(t)
       case Some(at) => Some(BookingRequest(hostId, at))
       case None => None)
    case _ => None
  }

  /** Every body with a string `hostId` and a valid date-time `startTime` is accepted with
      exactly those, whatever other members it has. */
  lemma ParseBookingRequestComplete(body: Json, parseDateTime: string -> Option<int>, hostId: Id, t: string, at: int)
    requires Member(body, "hostId") == Some(JString(hostId))
    requires Member(body, "startTime") == Some(JString(t))
    requires parseDateTime(t) == Some(at)
    ensures ParseBookingRequest(body, parseDateTime) == Some(BookingRequest(hostId, at))
  {
  }

  /** The create-booking body a client sends. */
  function BookingBody(hostId: Id, startTime: string): (body: Json)
    ensures Member(body, "hostId") == Some(JString(hostId))
    ensures Member(body, "startTime") == Some(JString(startTime))
  {
    JObject(map["hostId" := JString(hostId), "startTime" := JString(startTime)])
  }

  /** A body with a host id and a valid date-time is accepted with exactly those. */
  lemma BookingRequestRoundTrip(hostId: Id, startTime: string, at: int, parseDateTime: string -> Option<int>)
    requires parseDateTime(startTime) == Some(at)
    ensures ParseBookingRequest(BookingBody(hostId, startTime), parseDateTime) == Some(BookingRequest(hostId, at))
  {
  }

  /** The checks of `POST /bookings`, in the handler's order: an identity (401), a valid
      body (400), not the caller's own id (400), a stored user with role `host` (400),
      and only then the caller's role `guest` (403). */
  function CreateCheck(users: seq<User>, caller: Option<Identity>, body: Json, env: Env): (r: Result<BookingRequest>)
    ensures r == Err(Unauthorized) <==> caller.None?
    ensures r == Err(InvalidData) <==> caller.Some? && ParseBookingRequest(body, env.parseDateTime).None?
    ensures r == Err(SelfBooking) <==>
      caller.Some? && ParseBookingRequest(body, env.parseDateTime).Some?
      && ParseBookingRequest(body, env.parseDateTime).value.hostId == caller.value.userId
    ensures r == Err(HostNotFound) <==>
      caller.Some? && ParseBookingRequest(body, env.parseDateTime).Some?
      && ParseBookingRequest(body, env.parseDateTime).value.hostId != caller.value.userId
      && !IsHost(users, ParseBookingRequest(body, env.parseDateTime).value.hostId)
    ensures r == Err(GuestsOnly) <==>
      caller.Some? && ParseBookingRequest(body, env.parseDateTime).Some?
      && ParseBookingRequest(body, env.parseDateTime).value.hostId != caller.value.userId
      && IsHost(users, ParseBookingRequest(body, env.parseDateTime).value.hostId)
      && caller.value.role != Guest
    ensures r.Ok? ==>
      && caller.Some? && caller.value.role == Guest
      && ParseBookingRequest(body, env.parseDateTime) == Some(r.value)
      && r.value.hostId != caller.value.userId && IsHost(users, r.value.hostId)
    ensures r.Err? ==> r.failure in {Unauthorized, InvalidData, SelfBooking, HostNotFound, GuestsOnly}
  {
    match caller
    case None => Err(Unauthorized)
    case Some(me) =>
      match ParseBookingRequest(body, env.parseDateTime)
      case None => Err(InvalidData)
      case Some(req) =>
        if req.hostId == me.userId then Err(SelfBooking)
        else if !IsHost(users, req.hostId) then Err(HostNotFound)
        else if me.role != Guest then Err(GuestsOnly)
        else Ok(req)
  }

  /** Booking someone who is not a stored host fails with "Host not found", whatever the
      caller's role: the host check comes before the role check. */
  lemma NonHostRefused(users: seq<User>, me: Identity, body: Json, env: Env)
    requires ParseBookingRequest(body, env.parseDateTime).Some?
    requires ParseBookingRequest(body, env.parseDateTime).value.hostId != me.userId
    requires !IsHost(users, ParseBookingRequest(body, env.parseDateTime).value.hostId)
    ensures CreateCheck(users, Some(me), body, env) == Err(HostNotFound)
  {
  }

  /** The guest reference is not checked against the store: a guest identity whose id
      no stored user has may still book a host. */
  lemma GuestNeedNotBeStored(users: seq<User>, guestId: Id, body: Json, env: Env)
    requires UserIndex(users, guestId).None?
    requires ParseBookingRequest(body, env.parseDateTime).Some?
    requires ParseBookingRequest(body, env.parseDateTime).value.hostId != guestId
    requires IsHost(users, ParseBookingRequest(body, env.parseDateTime).value.hostId)
    ensures CreateCheck(users, Some(Identity(guestId, Guest)), body, env).Ok?
  {
  }

  /** `POST /bookings`, with `newId` the id the database assigns and `now` the clock.
      Every failure leaves the store unchanged; a success appends exactly one booking:
      pending, for the requested host and start time, with the caller as guest. */
  method CreateBooking(db: Database, caller: Option<Identity>, body: Json, env: Env, newId: Id, now: int)
    returns (r: Result<Booking>)
    requires db.Valid()
    modifies db
    ensures db.Valid() && db.users == old(db.users)
    ensures r.Err? ==> db.bookings == old(db.bookings)
    ensures match CreateCheck(old(db.users), caller, body, env)
      case Err(f) => r == Err(f)
      case Ok(req) =>
        var b := NewBooking(newId, req.hostId, caller.value.userId, req.startTime, Some(Pending), now);
        if BookingIndex(old(db.bookings), newId).None? then
          r == Ok(b) && db.bookings == old(db.bookings) + [b]
        else
          r == Err(Internal)
  {
    var check := CreateCheck(db.users, caller, body, env);
    if check.Err? {
      return Err(check.failure);
    }
    var req := check.value;
    var b := NewBooking(newId, req.hostId, caller.value.userId, req.startTime, Some(Pending), now);
    // `SessionBooking.create` fails on a duplicate `_id`.
    if BookingIndex(db.bookings, newId).Some? {
      return Err(Internal);
    }
    ghost var before := db.bookings;
    db.bookings := db.bookings + [b];
    assert forall i :: 0 <= i < |before| ==> db.bookings[i] == before[i];
    r := Ok(b);
  }

  // ---------------------------------------------------------------- list

  /** The caller takes part in the booking, as its host or as its guest. */
  predicate Involves(b: Booking, userId: Id) {
    b.hostId == userId || b.guestId == userId
  }

  /** The query `{$or: [{hostId}, {guestId}]}`: the bookings the user takes part in, in
      store order. */
  function Involving(bs: seq<Booking>, userId: Id): (r: seq<Booking>)
    ensures forall b :: b in r <==> b in bs && Involves(b, userId)
    ensures forall i :: 0 <= i < |r| ==> Involves(r[i], userId)
    ensures |r| <= |bs|
    ensures forall b :: multiset(r)[b] == if Involves(b, userId) then multiset(bs)[b] else 0
  {
    if bs == [] then []
    else
      assert bs == [bs[0]] + bs[1..];
      if Involves(bs[0], userId) then [bs[0]] + Involving(bs[1..], userId)
      else Involving(bs[1..], userId)
  }

  predicate SortedByStart(s: seq<Booking>) {
    forall i, j :: 0 <= i < j < |s| ==> s[i].startTime <= s[j].startTime
  }

  /** Puts `b` into a list sorted by start time, before the bookings that start at the
      same instant. */
  function InsertByStart(b: Booking, s: seq<Booking>): (r: seq<Booking>)
    requires SortedByStart(s)
    ensures SortedByStart(r)
    ensures multiset(r) == multiset(s) + multiset{b}
  {
    if s == [] then [b]
    else if b.startTime <= s[0].startTime then [b] + s
    else
      var rest := InsertByStart(b, s[1..]);
      StartsNoEarlier(s[0].startTime, b, s[1..], rest);
      assert s == [s[0]] + s[1..];
      [s[0]] + rest
  }

  /** Inserting a booking that starts no earlier than `t` into bookings that all start no
      earlier than `t` gives bookings that all start no earlier than `t`. */
  lemma StartsNoEarlier(t: int, b: Booking, s: seq<Booking>, r: seq<Booking>)
    requires t <= b.startTime
    requires forall i :: 0 <= i < |s| ==> t <= s[i].startTime
    requires multiset(r) == multiset(s) + multiset{b}
    ensures forall j :: 0 <= j < |r| ==> t <= r[j].startTime
  {
    forall j | 0 <= j < |r| ensures t <= r[j].startTime {
      assert r[j] in multiset(r);
      assert r[j] == b || r[j] in multiset(s);
    }
  }

  /** `.sort({startTime: 1})`, an insertion sort: ascending start time, and the same
      bookings it was given. */
  function SortByStart(s: seq<Booking>): (r: seq<Booking>)
    ensures SortedByStart(r)
    ensures multiset(r) == multiset(s)
  {
    if s == [] then []
    else
      assert s == [s[0]] + s[1..];
      InsertByStart(s[0], SortByStart(s[1..]))
  }

  /** The bookings a user takes part in, by ascending start time. */
  function MyBookings(bs: seq<Booking>, userId: Id): (r: seq<Booking>)
    ensures SortedByStart(r)
    ensures multiset(r) == multiset(Involving(bs, userId))
    ensures forall b :: b in r <==> b in bs && Involves(b, userId)
  {
    var r := SortByStart(Involving(bs, userId));
    assert forall b :: b in r <==> b in multiset(Involving(bs, userId));
    r
  }

  /** `GET /bookings/me`: 401 without an identity, and otherwise exactly the bookings the
      caller hosts or attends, by ascending start time. It never writes the store. */
  function ListMyBookings(bookings: seq<Booking>, caller: Option<Identity>): (r: Result<seq<Booking>>)
    ensures r == Err(Unauthorized) <==> caller.None?
    ensures caller.Some? ==> r.Ok? && SortedByStart(r.value)
    ensures caller.Some? ==> r.Ok? && multiset(r.value) == multiset(Involving(bookings, caller.value.userId))
    ensures caller.Some? ==> r.Ok? && forall b :: b in r.value <==> b in bookings && Involves(b, caller.value.userId)
  {
    match caller
    case None => Err(Unauthorized)
    case Some(me) => Ok(MyBookings(bookings, me.userId))
  }

  // ---------------------------------------------------------------- status

  /** `updateStatusSchema.safeParse(body)`: `confirmed`, `completed` or `cancelled`;
      `pending` is not a status a booking can be set to. */
  function ParseTargetStatus(body: Json): (r: Option<BookingStatus>)
    ensures r.Some? ==> r.value != Pending && Member(body, "status") == Some(JString(StatusName(r.value)))
  {
    match StringMember(body, "status")
    case Some(s) =>
      if s == "confirmed" then Some(Confirmed)
      else if s == "completed" then Some(Completed)
      else if s == "cancelled" then Some(Cancelled)
      else None
    case None => None
  }

  /** Every body whose `status` names a status other than `pending` is accepted with that
      status, whatever other members it has. */
  lemma ParseTargetStatusComplete(body: Json, s: BookingStatus)
    requires s != Pending
    requires Member(body, "status") == Some(JString(StatusName(s)))
    ensures ParseTargetStatus(body) == Some(s)
  {
  }

  /** The status-update body a client sends. */
  function StatusBody(s: BookingStatus): (body: Json)
    ensures Member(body, "status") == Some(JString(StatusName(s)))
  {
    JObject(map["status" := JString(StatusName(s))])
  }

  /** Every status but `pending` is accepted as a target, and `pending` is refused. */
  lemma TargetStatusRoundTrip(s: BookingStatus)
    ensures ParseTargetStatus(StatusBody(s)) == if s == Pending then None else Some(s)
  {
  }

  /** The checks of `PATCH /bookings/:id/status`, in the handler's order: an identity
      (401), a valid target status (400, before the booking is looked up), a stored
      booking (404), the caller as its host (403). On success it gives the booking's
      position and the target status; the booking's current status plays no part. */
  function StatusCheck(bs: seq<Booking>, caller: Option<Identity>, bookingId: Id, body: Json): (r: Result<(nat, BookingStatus)>)
    ensures r == Err(Unauthorized) <==> caller.None?
    ensures r == Err(InvalidData) <==> caller.Some? && ParseTargetStatus(body).None?
    ensures r == Err(BookingNotFound) <==>
      caller.Some? && ParseTargetStatus(body).Some? && forall j :: 0 <= j < |bs| ==> bs[j].id != bookingId
    ensures r == Err(NotAllowed) <==>
      caller.Some? && ParseTargetStatus(body).Some? && BookingIndex(bs, bookingId).Some?
      && bs[BookingIndex(bs, bookingId).value].hostId != caller.value.userId
    ensures r.Ok? ==>
      && caller.Some? && r.value.0 < |bs| && bs[r.value.0].id == bookingId
      && bs[r.value.0].hostId == caller.value.userId
      && ParseTargetStatus(body) == Some(r.value.1) && r.value.1 != Pending
    ensures r.Err? ==> r.failure in {Unauthorized, InvalidData, BookingNotFound, NotAllowed}
  {
    match caller
    case None => Err(Unauthorized)
    case Some(me) =>
      match ParseTargetStatus(body)
      case None => Err(InvalidData)
      case Some(s) =>
        match BookingIndex(bs, bookingId)
        case None => Err(BookingNotFound)
        case Some(k) => if bs[k].hostId != me.userId then Err(NotAllowed) else Ok((k, s))
  }

  /** Neither the booking's guest nor anyone else but its host may change its status,
      whatever their role. */
  lemma OnlyHostSetsStatus(bs: seq<Booking>, k: nat, who: Identity, body: Json)
    requires BookingsValid(bs) && k < |bs|
    requires who.userId != bs[k].hostId
    requires ParseTargetStatus(body).Some?
    ensures StatusCheck(bs, Some(who), bs[k].id, body) == Err(NotAllowed)
  {
  }

  /** The booking's host, whatever their role, sets any valid target status on it, and
      the update is aimed at that booking. */
  lemma HostSetsStatus(bs: seq<Booking>, k: nat, who: Identity, body: Json)
    requires BookingsValid(bs) && k < |bs|
    requires who.userId == bs[k].hostId
    requires ParseTargetStatus(body).Some?
    ensures StatusCheck(bs, Some(who), bs[k].id, body) == Ok((k, ParseTargetStatus(body).value))
  {
  }

  /** The checks never read a booking's status: changing the current status of any stored
      booking changes no outcome, so every status can follow every other, `completed`
      and `cancelled` included. */
  lemma StatusCheckIgnoresCurrentStatus(bs: seq<Booking>, k: nat, current: BookingStatus,
                                        caller: Option<Identity>, bookingId: Id, body: Json)
    requires k < |bs|
    ensures StatusCheck(bs[k := bs[k].(status := current)], caller, bookingId, body) == StatusCheck(bs, caller, bookingId, body)
  {
    BookingIndexReplace(bs, k, bs[k].(status := current), bookingId);
  }

  /** `PATCH /bookings/:id/status` at time `now`. Every failure leaves the store
      unchanged; a success rewrites the status and update time of that one booking and
      replies with it. */
  method UpdateStatus(db: Database, caller: Option<Identity>, bookingId: Id, body: Json, now: int)
    returns (r: Result<Booking>)
    requires db.Valid()
    modifies db
    ensures db.Valid() && db.users == old(db.users)
    ensures match StatusCheck(old(db.bookings), caller, bookingId, body)
      case Err(f) => r == Err(f) && db.bookings == old(db.bookings)
      case Ok((k, s)) =>
        && db.bookings == old(db.bookings)[k := WithStatus(old(db.bookings)[k], s, now)]
        && r == Ok(db.bookings[k])
  {
    var check := StatusCheck(db.bookings, caller, bookingId, body);
    if check.Err? {
      return Err(check.failure);
    }
    var (k, s) := check.value;
    var b := WithStatus(db.bookings[k], s, now);
    ghost var before := db.bookings;
    db.bookings := db.bookings[k := b];
    assert forall i :: 0 <= i < |before| ==> db.bookings[i].id == before[i].id && db.bookings[i].hostId == before[i].hostId;
    r := Ok(b);
  }
}
