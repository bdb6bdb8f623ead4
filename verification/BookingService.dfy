/** The booking service as a stateful object, one method per request, each proved to do what
    the request's specification says (src/services/booking.service.ts). */
module BookingService {
  import opened Wrappers
  import opened Datetime
  import opened Availability
  import opened Bookings
  import opened Listing
  import opened BookingRequests

  /** A booking's own insertion does not change what overlaps it. */
  lemma SameConflicts(db: Store, b: Booking, id: nat)
    requires id !in db
    ensures forall j | j in db ::
      Conflicts(db[id := b], Consultant(b.hrUserId), b.startAt, b.endAt, Some(id), j)
      == Conflicts(db, Consultant(b.hrUserId), b.startAt, b.endAt, Some(id), j)
    ensures Free(db[id := b], Consultant(b.hrUserId), b.startAt, b.endAt, Some(id))
      <==> Free(db, Consultant(b.hrUserId), b.startAt, b.endAt, Some(id))
  {
  }

  class Service {
    var bookings: Store
    var schedules: map<nat, SlotConfig>
    var reminders: map<nat, int>

    ghost function Now(): World
      reads this
    {
      World(bookings, schedules, reminders)
    }

    ghost predicate Valid()
      reads this
    {
      Safe(Now()) && forall hr | hr in schedules :: Stored(schedules[hr])
    }

    constructor ()
      ensures Valid() && Now() == World(map[], map[], map[])
    {
      bookings, schedules, reminders := map[], map[], map[];
    }

    method GetAvailability(hr: nat) returns (c: SlotConfig)
      requires Valid()
      ensures c == ConfigOf(Now(), hr) && Stored(c)
      ensures hr !in schedules ==> forall now, s :: !GateOpen(c, now, s)
    {
      FixedOffsetIsRegular(0);
      c := if hr in schedules then schedules[hr] else DefaultConfig();
    }

    /** Insert under the unique index, then stand down before a smaller id. Standing down leaves
        the store as it was. */
    method InsertBooking(b: Booking, id: nat) returns (r: Result<nat, BookingError>)
      requires id !in bookings && b.slotKey.Some?
      modifies this`bookings
      ensures r == Ok(id) || r == Err(SlotUnavailable)
      ensures bookings == if r.Ok? then old(bookings)[id := b] else old(bookings)
      ensures KeyTaken(old(bookings), b.slotKey.value, None) ==> r.Err?
      ensures r.Err? ==>
        || KeyTaken(old(bookings), b.slotKey.value, None)
        || exists j | j in old(bookings) ::
             j < id && Conflicts(old(bookings), Consultant(b.hrUserId), b.startAt, b.endAt, Some(id), j)
      ensures
        && !Free(old(bookings), Consultant(b.hrUserId), b.startAt, b.endAt, Some(id))
        && (forall j | j in old(bookings) ::
              Conflicts(old(bookings), Consultant(b.hrUserId), b.startAt, b.endAt, Some(id), j) ==> j < id)
        ==> r.Err?
    {
      if KeyTaken(bookings, b.slotKey.value, None) {
        return Err(SlotUnavailable);
      }
      bookings := bookings[id := b];
      SameConflicts(old(bookings), b, id);
      var conflict := FindOverlappingBooking(bookings, Consultant(b.hrUserId), b.startAt, b.endAt, Some(id));
      if conflict.Some? && conflict.value < id {
        bookings := bookings - {id};
        return Err(SlotUnavailable);
      }
      return Ok(id);
    }

    method ScheduleReminder(id: nat, startAt: int, now: int)
      modifies this`reminders
      ensures reminders == AddReminder(old(reminders), id, startAt, now)
    {
      var delay := startAt - REMINDER_LEAD - now;
      if delay <= 0 {
        return;
      }
      if id !in reminders {
        reminders := reminders[id := now + delay];
      }
    }

    method CreateBooking(userId: nat, profile: Option<Profile>, startAt: int, now: int, later: int, id: nat)
      returns (r: Result<nat, BookingError>)
      requires Valid() && id !in bookings
      modifies this
      ensures r == CreateResult(old(Now()), userId, profile, startAt, now, id)
      ensures Now() == Create(old(Now()), userId, profile, startAt, now, later, id)
      ensures Valid() && (old(RemindersAgree(Now())) ==> RemindersAgree(Now()))
    {
      CreateSafe(Now(), userId, profile, startAt, now, later, id);
      if profile.None? {
        return Err(NotFound);
      }
      if !profile.value.isAvailable {
        return Err(NotAccepting);
      }
      var hr := profile.value.userId;
      if hr == userId {
        return Err(SelfBooking);
      }
      var c := GetAvailability(hr);
      var offered := IsOfferedSlot(c, startAt, now);
      if !offered {
        return Err(NotOffered);
      }
      var endAt := AddMinutes(startAt, c.slotDurationMinutes);
      var clash := FindOverlappingBooking(bookings, Client(userId), startAt, endAt, None);
      if clash.Some? {
        return Err(ClientBusy);
      }
      clash := FindOverlappingBooking(bookings, Consultant(hr), startAt, endAt, None);
      if clash.Some? {
        return Err(SlotUnavailable);
      }
      ProtectionNeverFires(Now(), userId, profile, startAt, now, id);
      FreeExcluding(bookings, Consultant(hr), startAt, endAt, id);
      r := InsertBooking(NewBooking(userId, hr, startAt, c.slotDurationMinutes), id);
      ScheduleReminder(id, startAt, later);
    }

    method CancelBooking(actor: Actor, id: nat, now: int, works: bool) returns (r: Result<Role, BookingError>)
      requires Valid()
      modifies this
      ensures r == CancelResult(old(Now()), actor, id, now)
      ensures Now() == Cancel(old(Now()), actor, id, now, works)
      ensures Valid() && (old(RemindersAgree(Now())) && works ==> RemindersAgree(Now()))
    {
      CancelSafe(Now(), actor, id, now, works);
      if id !in bookings {
        return Err(NotFound);
      }
      var b := bookings[id];
      var role := RoleOf(actor, b);
      if role.None? {
        return Err(NotFound);
      }
      if !Active(b) {
        return Err(NotActive);
      }
      if b.startAt <= now {
        return Err(AlreadyStarted);
      }
      if role.value.ClientRole? && b.startAt - now < CANCEL_NOTICE_MINUTES * MINUTE {
        return Err(TooLate);
      }
      bookings := bookings[id := b.(status := Cancelled, slotKey := None)];
      if works {
        reminders := reminders - {id};
      }
      return Ok(role.value);
    }

    method RescheduleBooking(actor: Actor, id: nat, startAt: int, now: int, later: int, works: bool)
      returns (r: Result<nat, BookingError>)
      requires Valid()
      modifies this
      ensures r == RescheduleResult(old(Now()), actor, id, startAt, now)
      ensures Now() == Reschedule(old(Now()), actor, id, startAt, now, later, works)
      ensures Valid() && (old(RemindersAgree(Now())) && works ==> RemindersAgree(Now()))
    {
      RescheduleSafe(Now(), actor, id, startAt, now, later, works);
      if id !in bookings {
        return Err(NotFound);
      }
      var b := bookings[id];
      if RoleOf(actor, b).None? {
        return Err(NotFound);
      }
      if !Active(b) {
        return Err(NotActive);
      }
      if b.startAt <= now {
        return Err(AlreadyStarted);
      }
      if b.rescheduleCount >= RESCHEDULE_MAX {
        return Err(TooManyMoves);
      }
      if startAt == b.startAt {
        return Err(SameTime);
      }
      var c := GetAvailability(b.hrUserId);
      var offered := IsOfferedSlot(c, startAt, now);
      if !offered {
        return Err(NotOffered);
      }
      var endAt := AddMinutes(startAt, c.slotDurationMinutes);
      var clash := FindOverlappingBooking(bookings, Client(b.userId), startAt, endAt, Some(id));
      if clash.Some? {
        return Err(ClientBusy);
      }
      clash := FindOverlappingBooking(bookings, Consultant(b.hrUserId), startAt, endAt, Some(id));
      if clash.Some? {
        return Err(SlotUnavailable);
      }
      MoveKeyFree(Now(), actor, id, startAt, now);
      var moved := ConditionalMove(id, b, startAt, c.slotDurationMinutes);
      if !moved {
        return Err(SlotUnavailable);
      }
      if works {
        reminders := reminders - {id};
      }
      ScheduleReminder(id, startAt, later);
      return Ok(id);
    }

    /** The conditional update: only an active document moves, and only to a free key. */
    method ConditionalMove(id: nat, was: Booking, startAt: int, durationMinutes: int) returns (moved: bool)
      modifies this`bookings
      ensures moved <==>
        && id in old(bookings) && Active(old(bookings)[id])
        && !KeyTaken(old(bookings), SlotKey(was.hrUserId, startAt), Some(id))
      ensures bookings ==
        if moved then old(bookings)[id := MoveFields(old(bookings)[id], was, startAt, durationMinutes)]
        else old(bookings)
    {
      if id !in bookings || !Active(bookings[id]) {
        return false;
      }
      if KeyTaken(bookings, SlotKey(was.hrUserId, startAt), Some(id)) {
        return false;
      }
      bookings := bookings[id := MoveFields(bookings[id], was, startAt, durationMinutes)];
      return true;
    }

    /** The lifecycle job: ended bookings become completed and release their slot. */
    method CompleteEndedBookings(now: int)
      requires Valid()
      modifies this`bookings
      ensures bookings == CompleteEnded(old(bookings), now)
      ensures Valid()
    {
      CompleteSafe(Now(), now);
      bookings := UpdateEnded(bookings, now);
    }

    /** One document at a time, in any order. */
    static method UpdateEnded(db: Store, now: int) returns (r: Store)
      ensures r == CompleteEnded(db, now)
    {
      r := db;
      var rest := db.Keys;
      while rest != {}
        invariant rest <= db.Keys == r.Keys
        invariant forall id | id in rest :: r[id] == db[id]
        invariant forall id | id in db && id !in rest :: r[id] == CompleteEnded(db, now)[id]
        decreases |rest|
      {
        var id :| id in rest;
        rest := rest - {id};
        if Active(r[id]) && r[id].endAt <= now {
          r := r[id := CompleteFields(r[id])];
        }
      }
    }

    method UpdateAvailability(hr: nat, c: SlotConfig)
      requires Valid() && Validated(c)
      modifies this`schedules
      ensures schedules == old(schedules)[hr := c] && Valid()
    {
      schedules := schedules[hr := c];
    }

    /** The reminder worker: a due job leaves the queue, and mails go out only about a booking
        that is active and unfinished at that moment. */
    method RunReminder(id: nat, now: int, partiesFound: bool) returns (mails: seq<nat>)
      requires Valid() && id in reminders && reminders[id] <= now
      modifies this`reminders
      ensures Now() == TakeReminder(old(Now()), id, now) && Valid()
      ensures mails == ReminderEmails(old(Now()), id, now, partiesFound)
      ensures mails != [] ==> id in bookings && Active(bookings[id]) && now < bookings[id].endAt
      ensures old(RemindersAgree(Now())) && mails != [] ==>
        bookings[id].startAt - REMINDER_LEAD <= now && RemindersAgree(Now())
    {
      reminders := reminders - {id};
      if id !in bookings {
        return [];
      }
      var b := bookings[id];
      if !Active(b) || b.endAt <= now {
        return [];
      }
      if !partiesFound {
        return [];
      }
      mails := [b.userId];
      mails := mails + [b.hrUserId];
    }
  }
}
