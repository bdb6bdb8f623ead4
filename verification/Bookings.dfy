/** The stored booking (src/models/Booking.ts), the unique sparse slot index and the overlap
    query (src/services/booking.service.ts). */
module Bookings {
  import opened Wrappers
  import opened Datetime

  datatype BookingStatus = Pending | Confirmed | Cancelled | Completed | NoShow

  /** `<consultant>:<start>`; distinct pairs make distinct keys. */
  datatype SlotKey = SlotKey(hrUserId: nat, startAt: int)

  datatype Booking = Booking(
    userId: nat,
    hrUserId: nat,
    startAt: int,
    endAt: int,
    durationMinutes: int,
    status: BookingStatus,
    slotKey: Option<SlotKey>,
    rescheduleCount: nat,
    previousStartAt: Option<int>)

  type Store = map<nat, Booking>

  datatype Owner = Consultant(id: nat) | Client(id: nat)

  const CANCEL_NOTICE_MINUTES := 60
  const RESCHEDULE_MAX := 3

  predicate Active(b: Booking) {
    b.status.Pending? || b.status.Confirmed?
  }

  predicate OwnedBy(b: Booking, owner: Owner) {
    match owner
    case Consultant(id) => b.hrUserId == id
    case Client(id) => b.userId == id
  }

  /** What the overlap query matches. */
  predicate Conflicts(db: Store, owner: Owner, startAt: int, endAt: int, exclude: Option<nat>, id: nat) {
    && id in db
    && OwnedBy(db[id], owner)
    && Active(db[id])
    && Overlaps(startAt, endAt, db[id].startAt, db[id].endAt)
    && exclude != Some(id)
  }

  predicate Free(db: Store, owner: Owner, startAt: int, endAt: int, exclude: Option<nat>) {
    forall id | id in db :: !Conflicts(db, owner, startAt, endAt, exclude, id)
  }

  /** Some match or other, whichever the database returns first. */
  method FindOverlappingBooking(db: Store, owner: Owner, startAt: int, endAt: int, exclude: Option<nat>)
    returns (conflict: Option<nat>)
    ensures conflict.None? <==> Free(db, owner, startAt, endAt, exclude)
    ensures conflict.Some? ==> Conflicts(db, owner, startAt, endAt, exclude, conflict.value)
  {
    if id :| id in db && Conflicts(db, owner, startAt, endAt, exclude, id) {
      return Some(id);
    }
    return None;
  }

  /** The sparse unique index refuses a second document with the same key. */
  predicate KeyTaken(db: Store, key: SlotKey, except: Option<nat>) {
    exists id | id in db :: except != Some(id) && db[id].slotKey == Some(key)
  }

  /** A slot key is there exactly while the booking is active, and names its consultant and start. */
  predicate KeyMatches(b: Booking) {
    b.slotKey == if Active(b) then Some(SlotKey(b.hrUserId, b.startAt)) else None
  }

  predicate KeysConsistent(db: Store) {
    forall id | id in db :: KeyMatches(db[id])
  }

  predicate KeysUnique(db: Store) {
    forall i, j | i in db && j in db && i != j && db[i].slotKey.Some? :: db[i].slotKey != db[j].slotKey
  }

  predicate Apart(a: Booking, b: Booking) {
    !Overlaps(a.startAt, a.endAt, b.startAt, b.endAt)
  }

  /** No two active bookings of one consultant overlap. */
  predicate ConsultantsDisjoint(db: Store) {
    forall i, j | i in db && j in db && i != j ::
      Active(db[i]) && Active(db[j]) && db[i].hrUserId == db[j].hrUserId ==> Apart(db[i], db[j])
  }

  /** No two active bookings of one client overlap. */
  predicate ClientsDisjoint(db: Store) {
    forall i, j | i in db && j in db && i != j ::
      Active(db[i]) && Active(db[j]) && db[i].userId == db[j].userId ==> Apart(db[i], db[j])
  }

  function NewBooking(userId: nat, hrUserId: nat, startAt: int, durationMinutes: int): Booking {
    Booking(userId, hrUserId, startAt, AddMinutes(startAt, durationMinutes), durationMinutes,
      Confirmed, Some(SlotKey(hrUserId, startAt)), 0, None)
  }

  /** The fields a cancellation writes; nothing else of the stored document changes. */
  function CancelFields(b: Booking): Booking {
    b.(status := Cancelled, slotKey := None)
  }

  function CompleteFields(b: Booking): Booking {
    b.(status := Completed, slotKey := None)
  }

  /** The fields a reschedule writes; `was` is the document read beforehand. */
  function MoveFields(b: Booking, was: Booking, startAt: int, durationMinutes: int): Booking {
    b.(startAt := startAt,
       endAt := AddMinutes(startAt, durationMinutes),
       durationMinutes := durationMinutes,
       slotKey := Some(SlotKey(was.hrUserId, startAt)),
       previousStartAt := Some(was.startAt),
       rescheduleCount := b.rescheduleCount + 1)
  }
}
