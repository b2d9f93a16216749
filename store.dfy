/** The two collections the handlers read and write, as one object the handlers share. */
module Store {
  import opened Wrappers
  import opened UserModel
  import opened BookingModel

  /** The user with this id exists and has role `host`. */
  predicate IsHost(users: seq<User>, id: Id) {
    match UserIndex(users, id)
    case Some(k) => users[k].role == Host
    case None => false
  }

  /** Every booking's host reference resolves to a user whose role is `host`. The schema
      does not enforce this; it follows from the booking handler's check, because users
      are never deleted and no handler changes an id or a role. */
  predicate HostsResolve(users: seq<User>, bookings: seq<Booking>) {
    forall i :: 0 <= i < |bookings| ==> IsHost(users, bookings[i].hostId)
  }

  /** A user store that grows by one document keeps every host a host. */
  lemma HostsResolveAppendUser(users: seq<User>, bookings: seq<Booking>, u: User)
    requires HostsResolve(users, bookings)
    ensures HostsResolve(users + [u], bookings)
  {
    forall i | 0 <= i < |bookings|
      ensures IsHost(users + [u], bookings[i].hostId)
    {
      UserIndexAppend(users, u, bookings[i].hostId);
      assert (users + [u])[UserIndex(users, bookings[i].hostId).value] == users[UserIndex(users, bookings[i].hostId).value];
    }
  }

  /** Rewriting one user without touching its id or role keeps every host a host. */
  lemma HostsResolveReplaceUser(users: seq<User>, bookings: seq<Booking>, k: nat, v: User)
    requires HostsResolve(users, bookings)
    requires k < |users| && v.id == users[k].id && v.role == users[k].role
    ensures HostsResolve(users[k := v], bookings)
  {
    forall i | 0 <= i < |bookings|
      ensures IsHost(users[k := v], bookings[i].hostId)
    {
      UserIndexReplace(users, k, v, bookings[i].hostId);
    }
  }

  class Database {
    var users: seq<User>
    var bookings: seq<Booking>

    /** The guarantees of both collections and the host references between them. */
    ghost predicate Valid()
      reads this
    {
      UsersValid(users) && BookingsValid(bookings) && HostsResolve(users, bookings)
    }

    /** Two empty collections. */
    constructor ()
      ensures Valid() && users == [] && bookings == []
    {
      users := [];
      bookings := [];
    }
  }
}
