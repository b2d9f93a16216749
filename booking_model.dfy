/** The session-booking schema: the status enum with its default, the stored booking
    document, and the uniqueness of booking ids. */
module BookingModel {
  import opened Wrappers
  import opened Lookup
  import opened UserModel

  datatype BookingStatus = Pending | Confirmed | Completed | Cancelled

  /** The status a booking document gets when none is given. */
  const DefaultStatus := Pending

  /** The status's spelling in JSON and in the database. */
  function StatusName(s: BookingStatus): string {
    match s
    case Pending => "pending"
    case Confirmed => "confirmed"
    case Completed => "completed"
    case Cancelled => "cancelled"
  }

  /** A stored booking. `hostId`, `guestId` and `startTime` are required, so they are
      plain fields; the two ids are references to users that the schema does not check.
      `startTime` is the instant in milliseconds; the timestamps come from `timestamps`. */
  datatype Booking = Booking(
    id: Id,
    hostId: Id,
    guestId: Id,
    startTime: int,
    status: BookingStatus,
    createdAt: int,
    updatedAt: int)

  /** The document `SessionBooking.create` builds at time `now`, with the schema's
      default status when none is given. */
  function NewBooking(id: Id, hostId: Id, guestId: Id, startTime: int, status: Option<BookingStatus>, now: int): (b: Booking)
    ensures b.id == id && b.hostId == hostId && b.guestId == guestId && b.startTime == startTime
    ensures status.None? ==> b.status == DefaultStatus
    ensures status.Some? ==> b.status == status.value
    ensures b.createdAt == now && b.updatedAt == now
  {
    Booking(id, hostId, guestId, startTime, status.GetOr(DefaultStatus), now, now)
  }

  /** What `save()` writes after `booking.status = s`: the new status and the update
      timestamp; every other field is the stored one. */
  function WithStatus(b: Booking, s: BookingStatus, now: int): (b': Booking)
    ensures b'.status == s && b'.updatedAt == now
    ensures b'.id == b.id && b'.hostId == b.hostId && b'.guestId == b.guestId
    ensures b'.startTime == b.startTime && b'.createdAt == b.createdAt
  {
    b.(status := s, updatedAt := now)
  }

  /** What the bookings collection guarantees: `_id` is unique. */
  predicate BookingsValid(bs: seq<Booking>) {
    forall i, j :: 0 <= i < j < |bs| ==> bs[i].id != bs[j].id
  }

  /** `SessionBooking.findById(id)`: the position of the booking with that id, if any. */
  function BookingIndex(bs: seq<Booking>, id: Id): (r: Option<nat>)
    ensures r.Some? ==> r.value < |bs| && bs[r.value].id == id
    ensures r.Some? ==> forall j :: 0 <= j < r.value ==> bs[j].id != id
    ensures r.None? ==> forall j :: 0 <= j < |bs| ==> bs[j].id != id
  {
    FirstIndex(bs, (b: Booking) => b.id == id)
  }

  /** Replacing a booking by one with the same id moves no lookup by id. */
  lemma BookingIndexReplace(bs: seq<Booking>, k: nat, b: Booking, id: Id)
    requires k < |bs| && b.id == bs[k].id
    ensures BookingIndex(bs[k := b], id) == BookingIndex(bs, id)
  {
    var s := bs[k := b];
    assert forall j :: 0 <= j < |bs| ==> s[j].id == bs[j].id;
  }
}
