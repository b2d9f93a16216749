/** The user schema: roles, the stored user document, the schema's defaults and
    required fields, and the store-level uniqueness of ids and emails. */
module UserModel {
  import opened Wrappers
  import opened Lookup

  /** A document identifier as the handlers see it (the string form of an ObjectId). */
  type Id = string

  datatype Role = Host | Guest | Admin

  /** The role a user document gets when none is given. */
  const DefaultRole := Guest

  /** The role's spelling in JSON and in the database. */
  function RoleName(r: Role): string {
    match r
    case Host => "host"
    case Guest => "guest"
    case Admin => "admin"
  }

  /** A stored user. Every field the schema marks required is a plain field; the four
      optional profile fields are `Option`s, except `languages`, which an array path
      always holds (empty by default). `createdAt` and `updatedAt` come from `timestamps`. */
  datatype User = User(
    id: Id,
    name: string,
    email: string,
    passwordHash: string,
    role: Role,
    bio: Option<string>,
    pricePerSession: Option<real>,
    languages: seq<string>,
    timezone: Option<string>,
    createdAt: int,
    updatedAt: int)

  /** The document `User.create` builds at time `now`: the schema's default role when
      none is given, no optional profile field, an empty languages array. */
  function NewUser(id: Id, name: string, email: string, passwordHash: string, role: Option<Role>, now: int): (u: User)
    ensures u.id == id && u.name == name && u.email == email && u.passwordHash == passwordHash
    ensures role.None? ==> u.role == DefaultRole
    ensures role.Some? ==> u.role == role.value
    ensures u.bio.None? && u.pricePerSession.None? && u.languages == [] && u.timezone.None?
    ensures u.createdAt == now && u.updatedAt == now
  {
    User(id, name, email, passwordHash, role.GetOr(DefaultRole), None, None, [], None, now, now)
  }

  /** The schema's `required: true` on name, email and passwordHash; for a string path
      the required validator refuses the empty string. */
  predicate RequiredPresent(u: User) {
    u.name != "" && u.email != "" && u.passwordHash != ""
  }

  /** What the users collection guarantees: every document passed validation, `_id` is
      unique, and the unique index on `email` holds. */
  predicate UsersValid(us: seq<User>) {
    && (forall i :: 0 <= i < |us| ==> RequiredPresent(us[i]))
    && (forall i, j :: 0 <= i < j < |us| ==> us[i].id != us[j].id)
    && (forall i, j :: 0 <= i < j < |us| ==> us[i].email != us[j].email)
  }

  /** `User.findById(id)`: the position of the document with that id, if any. */
  function UserIndex(us: seq<User>, id: Id): (r: Option<nat>)
    ensures r.Some? ==> r.value < |us| && us[r.value].id == id
    ensures r.Some? ==> forall j :: 0 <= j < r.value ==> us[j].id != id
    ensures r.None? ==> forall j :: 0 <= j < |us| ==> us[j].id != id
  {
    FirstIndex(us, (u: User) => u.id == id)
  }

  /** `User.findOne({email})`: the position of the first document with that email, if any. */
  function UserByEmail(us: seq<User>, email: string): (r: Option<nat>)
    ensures r.Some? ==> r.value < |us| && us[r.value].email == email
    ensures r.Some? ==> forall j :: 0 <= j < r.value ==> us[j].email != email
    ensures r.None? ==> forall j :: 0 <= j < |us| ==> us[j].email != email
  {
    FirstIndex(us, (u: User) => u.email == email)
  }

  /** In a valid store a lookup by id finds the one document with that id. */
  lemma UserIndexUnique(us: seq<User>, k: nat)
    requires UsersValid(us) && k < |us|
    ensures UserIndex(us, us[k].id) == Some(k)
  {
  }

  /** In a valid store a lookup by email finds the one document with that email. */
  lemma UserByEmailUnique(us: seq<User>, k: nat)
    requires UsersValid(us) && k < |us|
    ensures UserByEmail(us, us[k].email) == Some(k)
  {
  }

  /** Appending a document does not move the lookup of an id that was already stored,
      and finds the new document otherwise. */
  lemma UserIndexAppend(us: seq<User>, u: User, id: Id)
    ensures UserIndex(us + [u], id) ==
      (if UserIndex(us, id).Some? then UserIndex(us, id)
       else if u.id == id then Some(|us|) else None)
  {
    var s := us + [u];
    assert forall j :: 0 <= j < |us| ==> s[j] == us[j];
    assert s[|us|] == u;
  }

  /** Replacing a document by one with the same id moves no lookup by id. */
  lemma UserIndexReplace(us: seq<User>, k: nat, v: User, id: Id)
    requires k < |us| && v.id == us[k].id
    ensures UserIndex(us[k := v], id) == UserIndex(us, id)
  {
    var s := us[k := v];
    assert forall j :: 0 <= j < |us| ==> s[j].id == us[j].id;
  }

  /** Rewriting one document without touching its id or email, and keeping its required
      fields, keeps the store valid. */
  lemma UsersValidReplace(us: seq<User>, k: nat, v: User)
    requires UsersValid(us) && k < |us|
    requires v.id == us[k].id && v.email == us[k].email && RequiredPresent(v)
    ensures UsersValid(us[k := v])
  {
  }

  /** Appending a document that passed validation and whose id and email are new keeps
      the store valid. */
  lemma UsersValidAppend(us: seq<User>, u: User)
    requires UsersValid(us) && RequiredPresent(u)
    requires forall j :: 0 <= j < |us| ==> us[j].id != u.id && us[j].email != u.email
    ensures UsersValid(us + [u])
  {
  }
}
