/** Reading and partially updating the caller's own profile. */
module UserRoutes {
  import opened Wrappers
  import opened Json
  import opened UserModel
  import opened Services
  import opened Store

  const UserNotFound := Failure(404, "User not found")

  /** A validated profile update: None for a field the body leaves out. */
  datatype ProfileUpdate = ProfileUpdate(
    name: Option<string>,
    bio: Option<string>,
    pricePerSession: Option<real>,
    languages: Option<seq<string>>,
    timezone: Option<string>)

  /** The projection `name email role bio pricePerSession languages timezone` of a user
      document; the query keeps `_id` as well. The password hash is not part of it. */
  datatype Profile = Profile(
    id: Id,
    name: string,
    email: string,
    role: Role,
    bio: Option<string>,
    pricePerSession: Option<real>,
    languages: seq<string>,
    timezone: Option<string>)

  /** The bound each present field must keep: name of at least 2 characters, bio of at
      most 500, price in [0, 1000]. */
  predicate Fits(p: ProfileUpdate) {
    && (p.name.Some? ==> |p.name.value| >= 2)
    && (p.bio.Some? ==> |p.bio.value| <= 500)
    && (p.pricePerSession.Some? ==> 0.0 <= p.pricePerSession.value <= 1000.0)
  }

  function NameRule(j: Json): Option<string> {
    if j.JString? && |j.s| >= 2 then Some(j.s) else None
  }

  function BioRule(j: Json): Option<string> {
    if j.JString? && |j.s| <= 500 then Some(j.s) else None
  }

  function PriceRule(j: Json): Option<real> {
    if j.JNumber? && 0.0 <= j.n <= 1000.0 then Some(j.n) else None
  }

  function LanguagesRule(j: Json): Option<seq<string>> {
    if j.JArray? then StringItems(j.items) else None
  }

  function TimezoneRule(j: Json): Option<string> {
    if j.JString? then Some(j.s) else None
  }

  /** `updateProfileSchema.safeParse(body)`: every member is optional, and every present
      one must keep its rule; the members are the only ones taken from the body. */
  function ParseProfileUpdate(body: Json): (r: Option<ProfileUpdate>)
    ensures r.Some? ==> body.JObject? && Fits(r.value)
    ensures r.Some? ==> (r.value.name.Some? <==> Member(body, "name").Some?)
    ensures r.Some? ==> (r.value.bio.Some? <==> Member(body, "bio").Some?)
    ensures r.Some? ==> (r.value.pricePerSession.Some? <==> Member(body, "pricePerSession").Some?)
    ensures r.Some? ==> (r.value.languages.Some? <==> Member(body, "languages").Some?)
    ensures r.Some? ==> (r.value.timezone.Some? <==> Member(body, "timezone").Some?)
    ensures r.Some? && r.value.name.Some? ==> Member(body, "name") == Some(JString(r.value.name.value))
    ensures r.Some? && r.value.bio.Some? ==> Member(body, "bio") == Some(JString(r.value.bio.value))
    ensures r.Some? && r.value.pricePerSession.Some? ==> Member(body, "pricePerSession") == Some(JNumber(r.value.pricePerSession.value))
    ensures r.Some? && r.value.timezone.Some? ==> Member(body, "timezone") == Some(JString(r.value.timezone.value))
    ensures r.Some? && r.value.languages.Some? ==>
      Member(body, "languages").value.JArray? && StringItems(Member(body, "languages").value.items) == r.value.languages
    ensures (exists s :: Member(body, "name") == Some(JString(s)) && |s| < 2) ==> r.None?
    ensures (exists s :: Member(body, "bio") == Some(JString(s)) && |s| > 500) ==> r.None?
    ensures (exists n :: Member(body, "pricePerSession") == Some(JNumber(n)) && (n < 0.0 || n > 1000.0)) ==> r.None?
  {
    if !body.JObject? then None
    else
      match (Optional(Member(body, "name"), NameRule), Optional(Member(body, "bio"), BioRule),
             Optional(Member(body, "pricePerSession"), PriceRule), Optional(Member(body, "languages"), LanguagesRule),
             Optional(Member(body, "timezone"), TimezoneRule))
      case (Some(name), Some(bio), Some(price), Some(languages), Some(timezone)) =>
        Some(ProfileUpdate(name, bio, price, languages, timezone))
      case _ => None
  }

  /** Every object body whose members for the five fields are exactly those of an update
      that keeps every bound is accepted with that update, whatever other members it has. */
  lemma ParseProfileUpdateComplete(body: Json, p: ProfileUpdate)
    requires body.JObject? && Fits(p)
    requires Member(body, "name") == if p.name.Some? then Some(JString(p.name.value)) else None
    requires Member(body, "bio") == if p.bio.Some? then Some(JString(p.bio.value)) else None
    requires Member(body, "pricePerSession") == if p.pricePerSession.Some? then Some(JNumber(p.pricePerSession.value)) else None
    requires Member(body, "languages") == if p.languages.Some? then Some(StringArray(p.languages.value)) else None
    requires Member(body, "timezone") == if p.timezone.Some? then Some(JString(p.timezone.value)) else None
    ensures ParseProfileUpdate(body) == Some(p)
  {
    if p.languages.Some? {
      StringArrayRoundTrip(p.languages.value);
    }
  }

  /** The body a client sends for an update: one member per present field. */
  function ProfileBody(p: ProfileUpdate): (body: Json)
    ensures body.JObject?
    ensures Member(body, "name") == if p.name.Some? then Some(JString(p.name.value)) else None
    ensures Member(body, "bio") == if p.bio.Some? then Some(JString(p.bio.value)) else None
    ensures Member(body, "pricePerSession") == if p.pricePerSession.Some? then Some(JNumber(p.pricePerSession.value)) else None
    ensures Member(body, "languages") == if p.languages.Some? then Some(StringArray(p.languages.value)) else None
    ensures Member(body, "timezone") == if p.timezone.Some? then Some(JString(p.timezone.value)) else None
  {
    var m0: map<string, Json> := map[];
    var m1 := if p.name.Some? then m0["name" := JString(p.name.value)] else m0;
    var m2 := if p.bio.Some? then m1["bio" := JString(p.bio.value)] else m1;
    var m3 := if p.pricePerSession.Some? then m2["pricePerSession" := JNumber(p.pricePerSession.value)] else m2;
    var m4 := if p.languages.Some? then m3["languages" := StringArray(p.languages.value)] else m3;
    var m5 := if p.timezone.Some? then m4["timezone" := JString(p.timezone.value)] else m4;
    JObject(m5)
  }

  /** Validating the body of an update that keeps every bound gives the update back. */
  lemma ProfileRoundTrip(p: ProfileUpdate)
    requires Fits(p)
    ensures ParseProfileUpdate(ProfileBody(p)) == Some(p)
  {
    if p.languages.Some? {
      StringArrayRoundTrip(p.languages.value);
    }
  }

  /** `findByIdAndUpdate(id, update)` on one document at time `now`: each present field
      replaces the stored one, each absent field keeps its value, and the id, email, role,
      password hash and creation time never change. */
  function Merge(u: User, p: ProfileUpdate, now: int): (v: User)
    ensures v.id == u.id && v.email == u.email && v.role == u.role
    ensures v.passwordHash == u.passwordHash && v.createdAt == u.createdAt && v.updatedAt == now
    ensures v.name == (if p.name.Some? then p.name.value else u.name)
    ensures v.bio == (if p.bio.Some? then p.bio else u.bio)
    ensures v.pricePerSession == (if p.pricePerSession.Some? then p.pricePerSession else u.pricePerSession)
    ensures v.languages == (if p.languages.Some? then p.languages.value else u.languages)
    ensures v.timezone == (if p.timezone.Some? then p.timezone else u.timezone)
  {
    u.(name := p.name.GetOr(u.name),
       bio := if p.bio.Some? then p.bio else u.bio,
       pricePerSession := if p.pricePerSession.Some? then p.pricePerSession else u.pricePerSession,
       languages := p.languages.GetOr(u.languages),
       timezone := if p.timezone.Some? then p.timezone else u.timezone,
       updatedAt := now)
  }

  /** Applying the same update twice is the same as applying it once. */
  lemma MergeIdempotent(u: User, p: ProfileUpdate, now: int)
    ensures Merge(Merge(u, p, now), p, now) == Merge(u, p, now)
  {
  }

  /** A body carrying only a bio changes the bio and nothing else the user can see. */
  lemma BioOnlyUpdate(u: User, bio: string, now: int)
    requires |bio| <= 500
    ensures ParseProfileUpdate(JObject(map["bio" := JString(bio)])).Some?
    ensures var v := Merge(u, ParseProfileUpdate(JObject(map["bio" := JString(bio)])).value, now);
      && v.bio == Some(bio)
      && v.name == u.name && v.email == u.email && v.role == u.role
      && v.pricePerSession == u.pricePerSession && v.languages == u.languages && v.timezone == u.timezone
  {
  }

  /** The selected fields of a user document. */
  function Project(u: User): (p: Profile)
    ensures p.id == u.id && p.name == u.name && p.email == u.email && p.role == u.role
    ensures p.bio == u.bio && p.pricePerSession == u.pricePerSession
    ensures p.languages == u.languages && p.timezone == u.timezone
  {
    Profile(u.id, u.name, u.email, u.role, u.bio, u.pricePerSession, u.languages, u.timezone)
  }

  /** Two users that differ only in their password hash and timestamps have the same
      projection: nothing of the hash reaches the reply. */
  lemma ProjectHidesHash(u: User, hash: string, createdAt: int, updatedAt: int)
    ensures Project(u.(passwordHash := hash, createdAt := createdAt, updatedAt := updatedAt)) == Project(u)
  {
  }

  /** `GET /me`: 401 without an identity, 404 when the caller's id is not stored, and
      otherwise the projection of the caller's document. It never writes the store. */
  function GetSelf(users: seq<User>, caller: Option<Identity>): (r: Result<Profile>)
    ensures r == Err(Unauthorized) <==> caller.None?
    ensures caller.Some? ==> (r == Err(UserNotFound) <==> forall k :: 0 <= k < |users| ==> users[k].id != caller.value.userId)
    ensures r.Ok? ==> caller.Some? && exists k :: 0 <= k < |users| && users[k].id == caller.value.userId && r.value == Project(users[k])
    ensures r.Err? ==> r.failure == Unauthorized || r.failure == UserNotFound
  {
    match caller
    case None => Err(Unauthorized)
    case Some(me) =>
      match UserIndex(users, me.userId)
      case None => Err(UserNotFound)
      case Some(k) => Ok(Project(users[k]))
  }

  /** The checks of `PUT /me` before the write: 401 without an identity, then 400 for a
      body that breaks a rule, then 404 when the caller's id is not stored. On success
      it gives the caller's position and the validated update. */
  function UpdateSelfCheck(users: seq<User>, caller: Option<Identity>, body: Json): (r: Result<(nat, ProfileUpdate)>)
    ensures r == Err(Unauthorized) <==> caller.None?
    ensures r == Err(InvalidData) <==> caller.Some? && ParseProfileUpdate(body).None?
    ensures r == Err(UserNotFound) <==>
      caller.Some? && ParseProfileUpdate(body).Some? && forall k :: 0 <= k < |users| ==> users[k].id != caller.value.userId
    ensures r.Ok? ==> caller.Some? && r.value.0 < |users| && users[r.value.0].id == caller.value.userId
    ensures r.Ok? ==> ParseProfileUpdate(body) == Some(r.value.1) && Fits(r.value.1)
    ensures r.Err? ==> r.failure in {Unauthorized, InvalidData, UserNotFound}
  {
    match caller
    case None => Err(Unauthorized)
    case Some(me) =>
      match ParseProfileUpdate(body)
      case None => Err(InvalidData)
      case Some(p) =>
        match UserIndex(users, me.userId)
        case None => Err(UserNotFound)
        case Some(k) => Ok((k, p))
  }

  /** `PUT /me` at time `now`. Every failure leaves the store unchanged; a success merges
      the update into the caller's document only, and replies with its new projection. */
  method UpdateSelf(db: Database, caller: Option<Identity>, body: Json, now: int) returns (r: Result<Profile>)
    requires db.Valid()
    modifies db
    ensures db.Valid() && db.bookings == old(db.bookings)
    ensures match UpdateSelfCheck(old(db.users), caller, body)
      case Err(f) => r == Err(f) && db.users == old(db.users)
      case Ok((k, p)) =>
        && db.users == old(db.users)[k := Merge(old(db.users)[k], p, now)]
        && r == Ok(Project(db.users[k]))
  {
    var check := UpdateSelfCheck(db.users, caller, body);
    if check.Err? {
      return Err(check.failure);
    }
    var (k, p) := check.value;
    var v := Merge(db.users[k], p, now);
    assert v.id == db.users[k].id && v.role == db.users[k].role;
    UsersValidReplace(db.users, k, v);
    HostsResolveReplaceUser(db.users, db.bookings, k, v);
    db.users := db.users[k := v];
    assert db.users[k] == v;
    r := Ok(Project(v));
  }
}
