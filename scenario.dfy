/** The end-to-end flow, verified against the handlers' contracts alone: a guest
    and a host register, the guest books the host through the authentication gate, the
    host confirms, and the guest's own attempt to change the status is refused. */
module Scenario {
  import opened Wrappers
  import opened Json
  import opened UserModel
  import opened BookingModel
  import opened Services
  import opened Store
  import opened AuthPlugin
  import opened AuthRoutes
  import opened BookingRoutes

  function RoleTag(r: Role): char {
    match r
    case Host => 'h'
    case Guest => 'g'
    case Admin => 'a'
  }

  /** A token format that keeps its claims readable: a tag for the role, then the id. */
  function TestSign(id: Identity): string {
    [RoleTag(id.role)] + id.userId
  }

  function TestVerify(t: string): Option<Identity> {
    if |t| == 0 then None
    else if t[0] == 'h' then Some(Identity(t[1..], Host))
    else if t[0] == 'g' then Some(Identity(t[1..], Guest))
    else if t[0] == 'a' then Some(Identity(t[1..], Admin))
    else None
  }

  const StartTime := "2025-01-01T09:00:00Z"

  function TestEnv(): Env {
    Env(
      s => |s| > 0,
      s => if s == StartTime then Some(1735722000000) else None,
      p => "hash:" + p,
      (p, h) => h == "hash:" + p,
      TestSign,
      TestVerify)
  }

  lemma TestTokensSound()
    ensures TokensSound(TestEnv())
  {
  }

  /** The identity the gate attaches to a request that carries `token`. */
  method SignIn(token: string) returns (caller: Option<Identity>)
    ensures caller == Gate(Some(BearerPrefix + token), TestVerify).ToOption()
  {
    var req := new Request(Some(BearerPrefix + token));
    var reply := req.Authenticate(TestVerify);
    caller := req.user;
  }

  method EndToEnd() returns (booked: Result<Booking>, confirmed: Result<Booking>, refused: Result<Booking>)
    ensures booked.Ok? && booked.value.status == Pending
    ensures booked.value.hostId == "bob" && booked.value.guestId == "ann"
    ensures confirmed.Ok? && confirmed.value.status == Confirmed && confirmed.value.id == booked.value.id
    ensures refused == Err(NotAllowed)
  {
    var env := TestEnv();
    TestTokensSound();
    var db := new Database();

    var ann := Registration("Ann", "ann@example.org", "secret-a", Guest);
    var bob := Registration("Bob", "bob@example.org", "secret-b", Host);
    RegistrationRoundTrip(ann, env.isEmail);
    RegistrationRoundTrip(bob, env.isEmail);
    assert RegisterCheck(db.users, RegistrationBody(ann), env) == Ok(ann);
    assert UserIndex(db.users, "ann") == None;
    var a := Register(db, RegistrationBody(ann), env, "ann", 1);
    assert db.users == [NewUser("ann", "Ann", "ann@example.org", env.hash("secret-a"), Some(Guest), 1)];
    assert UserByEmail(db.users, "bob@example.org") == None;
    assert RegisterCheck(db.users, RegistrationBody(bob), env) == Ok(bob);
    assert UserIndex(db.users, "bob") == None;
    var b := Register(db, RegistrationBody(bob), env, "bob", 2);
    assert db.users[1].id == "bob" && db.users[1].role == Host;
    assert a.Ok? && b.Ok?;

    GateAcceptsSignedToken(env, Identity("ann", Guest));
    GateAcceptsSignedToken(env, Identity("bob", Host));
    var guest := SignIn(a.value.token);
    var host := SignIn(b.value.token);

    BookingRequestRoundTrip("bob", StartTime, 1735722000000, env.parseDateTime);
    assert IsHost(db.users, "bob");
    booked := CreateBooking(db, guest, BookingBody("bob", StartTime), env, "booking-1", 3);
    assert db.bookings == [booked.value];
    assert BookingIndex(db.bookings, "booking-1") == Some(0);

    TargetStatusRoundTrip(Confirmed);
    confirmed := UpdateStatus(db, host, "booking-1", StatusBody(Confirmed), 4);
    refused := UpdateStatus(db, guest, "booking-1", StatusBody(Confirmed), 5);
  }
}
