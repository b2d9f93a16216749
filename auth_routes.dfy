/** Registration and login: body validation, email uniqueness, the stored user, and the
    `{token, user}` reply, whose user part never carries the password hash. */
module AuthRoutes {
  import opened Wrappers
  import opened Json
  import opened UserModel
  import opened Services
  import opened Store

  const EmailUsed := Failure(400, "Email already used")
  const InvalidCredentials := Failure(401, "Invalid credentials")

  /** A registration body after validation; `role` is already defaulted. */
  datatype Registration = Registration(name: string, email: string, password: string, role: Role)

  /** The login body after validation. */
  datatype Credentials = Credentials(email: string, password: string)

  /** The public part of a user in a register or login reply. */
  datatype AccountView = AccountView(id: Id, name: string, email: string, role: Role)

  /** The body of a successful register or login reply. */
  datatype AuthReply = AuthReply(token: string, user: AccountView)

  /** The rules of the registration schema: name of at least 2 characters, a valid
      email, password of at least 6 characters, role `host` or `guest`. */
  predicate ValidRegistration(reg: Registration, isEmail: string -> bool) {
    |reg.name| >= 2 && isEmail(reg.email) && |reg.password| >= 6 && reg.role != Admin
  }

  /** `z.enum(["host", "guest"]).default("guest")` on the role member. */
  function RegistrationRole(v: Option<Json>): (r: Option<Role>)
    ensures r.Some? ==> r.value != Admin
    ensures r.Some? ==> v.None? || v == Some(JString(RoleName(r.value)))
    ensures v.None? ==> r == Some(Guest)
  {
    match v
    case None => Some(Guest)
    case Some(JString(s)) =>
      if s == "host" then Some(Host) else if s == "guest" then Some(Guest) else None
    case Some(_) => None
  }

  /** `registerSchema.safeParse(body)`: the validated registration, or None. */
  function ParseRegistration(body: Json, isEmail: string -> bool): (r: Option<Registration>)
    ensures r.Some? ==> ValidRegistration(r.value, isEmail)
    ensures r.Some? ==> Member(body, "name") == Some(JString(r.value.name))
    ensures r.Some? ==> Member(body, "email") == Some(JString(r.value.email))
    ensures r.Some? ==> Member(body, "password") == Some(JString(r.value.password))
    ensures r.Some? ==> Member(body, "role").None? || Member(body, "role") == Some(JString(RoleName(r.value.role)))
    ensures r.Some? && Member(body, "role").None? ==> r.value.role == Guest
  {
    match (StringMember(body, "name"), StringMember(body, "email"), StringMember(body, "password"), RegistrationRole(Member(body, "role")))
    case (Some(name), Some(email), Some(password), Some(role)) =>
      if |name| >= 2 && isEmail(email) && |password| >= 6 then Some(Registration(name, email, password, role)) else None
    case _ => None
  }

  /** Every body that carries a valid registration is accepted, whatever other members it
      has, and with the role taken from the body or defaulted to `guest`. */
  lemma ParseRegistrationComplete(body: Json, isEmail: string -> bool, reg: Registration)
    requires ValidRegistration(reg, isEmail)
    requires Member(body, "name") == Some(JString(reg.name))
    requires Member(body, "email") == Some(JString(reg.email))
    requires Member(body, "password") == Some(JString(reg.password))
    requires Member(body, "role") == Some(JString(RoleName(reg.role))) || (Member(body, "role").None? && reg.role == Guest)
    ensures ParseRegistration(body, isEmail) == Some(reg)
  {
  }

  /** The registration body a client sends, with the role spelled out. */
  function RegistrationBody(reg: Registration): (body: Json)
    ensures Member(body, "name") == Some(JString(reg.name))
    ensures Member(body, "email") == Some(JString(reg.email))
    ensures Member(body, "password") == Some(JString(reg.password))
    ensures Member(body, "role") == Some(JString(RoleName(reg.role)))
  {
    JObject(map["name" := JString(reg.name), "email" := JString(reg.email),
                "password" := JString(reg.password), "role" := JString(RoleName(reg.role))])
  }

  /** Validating an encoded valid registration gives it back. */
  lemma RegistrationRoundTrip(reg: Registration, isEmail: string -> bool)
    requires ValidRegistration(reg, isEmail)
    ensures ParseRegistration(RegistrationBody(reg), isEmail) == Some(reg)
  {
  }

  /** `loginSchema.safeParse(body)`: a valid email and a password of at least 6 characters. */
  function ParseCredentials(body: Json, isEmail: string -> bool): (r: Option<Credentials>)
    ensures r.Some? ==> isEmail(r.value.email) && |r.value.password| >= 6
    ensures r.Some? ==> Member(body, "email") == Some(JString(r.value.email))
    ensures r.Some? ==> Member(body, "password") == Some(JString(r.value.password))
  {
    match (StringMember(body, "email"), StringMember(body, "password"))
    case (Some(email), Some(password)) =>
      if isEmail(email) && |password| >= 6 then Some(Credentials(email, password)) else None
    case _ => None
  }

  /** Every body that carries a valid email and password is accepted with exactly those,
      whatever other members it has. */
  lemma ParseCredentialsComplete(body: Json, isEmail: string -> bool, c: Credentials)
    requires isEmail(c.email) && |c.password| >= 6
    requires Member(body, "email") == Some(JString(c.email))
    requires Member(body, "password") == Some(JString(c.password))
    ensures ParseCredentials(body, isEmail) == Some(c)
  {
  }

  /** The login body a client sends. */
  function CredentialsBody(c: Credentials): (body: Json)
    ensures Member(body, "email") == Some(JString(c.email))
    ensures Member(body, "password") == Some(JString(c.password))
  {
    JObject(map["email" := JString(c.email), "password" := JString(c.password)])
  }

  /** Validating an encoded valid login body gives it back. */
  lemma CredentialsRoundTrip(c: Credentials, isEmail: string -> bool)
    requires isEmail(c.email) && |c.password| >= 6
    ensures ParseCredentials(CredentialsBody(c), isEmail) == Some(c)
  {
  }

  /** The reply for user `u`: a token for exactly `{userId: u.id, role: u.role}`, and the
      user's id, name, email and role. */
  function ReplyFor(u: User, sign: Identity -> string): (r: AuthReply)
    ensures r.token == sign(Identity(u.id, u.role))
    ensures r.user.id == u.id && r.user.name == u.name && r.user.email == u.email && r.user.role == u.role
  {
    AuthReply(sign(Identity(u.id, u.role)), AccountView(u.id, u.name, u.email, u.role))
  }

  /** The reply depends on the user's id, name, email and role only: two users that
      differ in their password hash, profile fields or timestamps get the same reply,
      so nothing of the hash reaches the client. */
  lemma ReplyHidesHash(u: User, v: User, sign: Identity -> string)
    requires u.id == v.id && u.name == v.name && u.email == v.email && u.role == v.role
    ensures ReplyFor(u, sign) == ReplyFor(v, sign)
    ensures ReplyFor(u, sign).token == sign(Identity(u.id, u.role))
  {
  }

  /** The checks of `POST /auth/register` before anything is written: the body is valid
      (else 400 "Invalid data"), then no stored user has its email (else 400 "Email
      already used"). */
  function RegisterCheck(users: seq<User>, body: Json, env: Env): (r: Result<Registration>)
    ensures r == Err(InvalidData) <==> ParseRegistration(body, env.isEmail).None?
    ensures r == Err(EmailUsed) <==>
      ParseRegistration(body, env.isEmail).Some? && UserByEmail(users, ParseRegistration(body, env.isEmail).value.email).Some?
    ensures r.Ok? ==> ParseRegistration(body, env.isEmail) == Some(r.value) && r.value.role != Admin
    ensures r.Ok? ==> forall k :: 0 <= k < |users| ==> users[k].email != r.value.email
    ensures r.Err? ==> r.failure == InvalidData || r.failure == EmailUsed
  {
    match ParseRegistration(body, env.isEmail)
    case None => Err(InvalidData)
    case Some(reg) =>
      if UserByEmail(users, reg.email).Some? then Err(EmailUsed) else Ok(reg)
  }

  /** `POST /auth/register`, with `newId` the id the database assigns to the new document
      and `now` the clock. Every failure leaves the store unchanged; a success appends
      exactly one user, with the requested (or default) role and the hash of the password. */
  method Register(db: Database, body: Json, env: Env, newId: Id, now: int) returns (r: Result<AuthReply>)
    requires db.Valid()
    modifies db
    ensures db.Valid() && db.bookings == old(db.bookings)
    ensures r.Err? ==> db.users == old(db.users)
    ensures match RegisterCheck(old(db.users), body, env)
      case Err(f) => r == Err(f)
      case Ok(reg) =>
        var u := NewUser(newId, reg.name, reg.email, env.hash(reg.password), Some(reg.role), now);
        if RequiredPresent(u) && UserIndex(old(db.users), newId).None? then
          r == Ok(ReplyFor(u, env.sign)) && db.users == old(db.users) + [u]
        else
          r == Err(Internal)
  {
    var check := RegisterCheck(db.users, body, env);
    if check.Err? {
      return Err(check.failure);
    }
    var reg := check.value;
    var hash := env.hash(reg.password);
    var u := NewUser(newId, reg.name, reg.email, hash, Some(reg.role), now);
    // `User.create` fails on a required field left empty or on a duplicate `_id`.
    if !RequiredPresent(u) || UserIndex(db.users, newId).Some? {
      return Err(Internal);
    }
    UsersValidAppend(db.users, u);
    HostsResolveAppendUser(db.users, db.bookings, u);
    db.users := db.users + [u];
    r := Ok(ReplyFor(u, env.sign));
  }

  /** `POST /auth/login`. It reads the store and never writes it. An unknown email and a
      wrong password give the same reply; a success replies for the stored user whose
      email was given and whose hash the password matches. */
  function Login(users: seq<User>, body: Json, env: Env): (r: Result<AuthReply>)
    ensures r.Err? ==> r.failure == InvalidData || r.failure == InvalidCredentials
    ensures r == Err(InvalidData) <==> ParseCredentials(body, env.isEmail).None?
    ensures ParseCredentials(body, env.isEmail).Some? ==>
      var c := ParseCredentials(body, env.isEmail).value;
      var k := UserByEmail(users, c.email);
      (k.None? || !env.matches(c.password, users[k.value].passwordHash)) ==> r == Err(InvalidCredentials)
    ensures r.Ok? ==>
      && ParseCredentials(body, env.isEmail).Some?
      && var c := ParseCredentials(body, env.isEmail).value;
         exists k :: 0 <= k < |users| && users[k].email == c.email && env.matches(c.password, users[k].passwordHash)
                     && r.value == ReplyFor(users[k], env.sign)
    ensures ParseCredentials(body, env.isEmail).Some? ==>
      var c := ParseCredentials(body, env.isEmail).value;
      var k := UserByEmail(users, c.email);
      (k.Some? && env.matches(c.password, users[k.value].passwordHash)) ==> r == Ok(ReplyFor(users[k.value], env.sign))
  {
    match ParseCredentials(body, env.isEmail)
    case None => Err(InvalidData)
    case Some(c) =>
      match UserByEmail(users, c.email)
      case None => Err(InvalidCredentials)
      case Some(k) =>
        if env.matches(c.password, users[k].passwordHash) then Ok(ReplyFor(users[k], env.sign))
        else Err(InvalidCredentials)
  }

  /** Once a user is stored with the hash of a password, logging in with that email and
      password succeeds and replies for exactly that user. */
  lemma LoginAfterRegister(users: seq<User>, u: User, password: string, env: Env)
    requires UsersValid(users + [u])
    requires HashSound(env) && u.passwordHash == env.hash(password)
    requires env.isEmail(u.email) && |password| >= 6
    ensures Login(users + [u], CredentialsBody(Credentials(u.email, password)), env) == Ok(ReplyFor(u, env.sign))
  {
    var c := Credentials(u.email, password);
    assert ParseCredentials(CredentialsBody(c), env.isEmail) == Some(c);
    UserByEmailUnique(users + [u], |users|);
    assert env.matches(password, env.hash(password));
  }

  /** A second registration with an email already stored is refused, whatever else the
      body says. */
  lemma EmailStaysUnique(users: seq<User>, k: nat, body: Json, env: Env)
    requires k < |users|
    requires ParseRegistration(body, env.isEmail).Some?
    requires ParseRegistration(body, env.isEmail).value.email == users[k].email
    ensures RegisterCheck(users, body, env) == Err(EmailUsed)
  {
  }
}
