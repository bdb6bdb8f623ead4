/** The booking requests one at a time: what each returns and what it does to the stored
    bookings, schedules and pending reminders (src/services/booking.service.ts,
    src/jobs/lifecycle.job.ts, src/jobs/reminder.job.ts, src/queues/reminder.queue.ts). */
module BookingRequests {
  import opened Wrappers
  import opened Datetime
  import opened Availability
  import opened Bookings
  import opened Slots
  import opened Listing
  import opened Windows

  const REMINDER_LEAD := 30 * MINUTE

  /** `reminders` holds the pending jobs by booking, with the instant each fires. */
  datatype World = World(
    bookings: Store,
    schedules: map<nat, SlotConfig>,
    reminders: map<nat, int>)

  datatype BookingError =
    | NotFound | NotAccepting | SelfBooking | NotOffered | ClientBusy | SlotUnavailable
    | NotActive | AlreadyStarted | TooLate | TooManyMoves | SameTime

  /** The published profile found for a create request. */
  datatype Profile = Profile(userId: nat, isAvailable: bool)

  datatype Actor = Actor(id: nat, isAdmin: bool)

  datatype Role = ClientRole | ConsultantRole | AdminRole

  /** The schedule of a consultant who never configured one: nothing is bookable. */
  function DefaultConfig(): SlotConfig {
    SlotConfig(FixedOffset(0), 30, 0, 120, 60, [], [])
  }

  function ConfigOf(w: World, hr: nat): (c: SlotConfig)
    ensures AllWellFormed(w.schedules) ==> WellFormed(c)
  {
    if hr in w.schedules then w.schedules[hr] else DefaultConfig()
  }

  function RoleOf(actor: Actor, b: Booking): Option<Role> {
    if b.userId == actor.id then Some(ClientRole)
    else if b.hrUserId == actor.id then Some(ConsultantRole)
    else if actor.isAdmin then Some(AdminRole)
    else None
  }

  // ----- The reminder queue ---------------------------------------------------------------

  /** Adding a job whose id is already there changes nothing; a due or past one is not added. */
  function AddReminder(reminders: map<nat, int>, id: nat, startAt: int, now: int): map<nat, int> {
    if startAt - REMINDER_LEAD - now <= 0 || id in reminders then reminders
    else reminders[id := startAt - REMINDER_LEAD]
  }

  /** A removal that fails is swallowed. */
  function RemoveReminder(reminders: map<nat, int>, id: nat, works: bool): map<nat, int> {
    if works then reminders - {id} else reminders
  }

  // ----- Create ----------------------------------------------------------------------------

  function NewFor(w: World, userId: nat, hr: nat, startAt: int): Booking {
    NewBooking(userId, hr, startAt, ConfigOf(w, hr).slotDurationMinutes)
  }

  ghost function CreateResult(w: World, userId: nat, profile: Option<Profile>, startAt: int, now: int, id: nat)
    : Result<nat, BookingError>
    requires AllWellFormed(w.schedules)
  {
    if profile.None? then Err(NotFound)
    else
      var hr := profile.value.userId;
      if !profile.value.isAvailable then Err(NotAccepting)
      else if hr == userId then Err(SelfBooking)
      else if !GateOpen(ConfigOf(w, hr), now, startAt) then Err(NotOffered)
      else
        var b := NewFor(w, userId, hr, startAt);
        if !Free(w.bookings, Client(userId), b.startAt, b.endAt, None) then Err(ClientBusy)
        else if !Free(w.bookings, Consultant(hr), b.startAt, b.endAt, None) then Err(SlotUnavailable)
        else Ok(id)
  }

  ghost function Create(w: World, userId: nat, profile: Option<Profile>, startAt: int, now: int, later: int, id: nat)
    : World
    requires AllWellFormed(w.schedules)
  {
    if CreateResult(w, userId, profile, startAt, now, id).Err? then w
    else
      w.(bookings := w.bookings[id := NewFor(w, userId, profile.value.userId, startAt)],
         reminders := AddReminder(w.reminders, id, startAt, later))
  }

  // ----- Cancel ----------------------------------------------------------------------------

  function CancelResult(w: World, actor: Actor, id: nat, now: int): Result<Role, BookingError> {
    if id !in w.bookings then Err(NotFound)
    else
      var b := w.bookings[id];
      match RoleOf(actor, b)
      case None => Err(NotFound)
      case Some(role) =>
        if !Active(b) then Err(NotActive)
        else if b.startAt <= now then Err(AlreadyStarted)
        else if role.ClientRole? && b.startAt - now < CANCEL_NOTICE_MINUTES * MINUTE then Err(TooLate)
        else Ok(role)
  }

  function Cancel(w: World, actor: Actor, id: nat, now: int, works: bool): World {
    if CancelResult(w, actor, id, now).Err? then w
    else
      w.(bookings := w.bookings[id := CancelFields(w.bookings[id])],
         reminders := RemoveReminder(w.reminders, id, works))
  }

  // ----- Reschedule -------------------------------------------------------------------------

  ghost function RescheduleResult(w: World, actor: Actor, id: nat, startAt: int, now: int)
    : Result<nat, BookingError>
    requires AllWellFormed(w.schedules)
  {
    if id !in w.bookings then Err(NotFound)
    else
      var b := w.bookings[id];
      var c := ConfigOf(w, b.hrUserId);
      var endAt := AddMinutes(startAt, c.slotDurationMinutes);
      if RoleOf(actor, b).None? then Err(NotFound)
      else if !Active(b) then Err(NotActive)
      else if b.startAt <= now then Err(AlreadyStarted)
      else if b.rescheduleCount >= RESCHEDULE_MAX then Err(TooManyMoves)
      else if startAt == b.startAt then Err(SameTime)
      else if !GateOpen(c, now, startAt) then Err(NotOffered)
      else if !Free(w.bookings, Client(b.userId), startAt, endAt, Some(id)) then Err(ClientBusy)
      else if !Free(w.bookings, Consultant(b.hrUserId), startAt, endAt, Some(id)) then Err(SlotUnavailable)
      else Ok(id)
  }

  ghost function Reschedule(w: World, actor: Actor, id: nat, startAt: int, now: int, later: int, works: bool)
    : World
    requires AllWellFormed(w.schedules)
  {
    if RescheduleResult(w, actor, id, startAt, now).Err? then w
    else
      var b := w.bookings[id];
      w.(bookings := w.bookings[id := MoveFields(b, b, startAt, ConfigOf(w, b.hrUserId).slotDurationMinutes)],
         reminders := AddReminder(RemoveReminder(w.reminders, id, works), id, startAt, later))
  }

  // ----- Completion, schedules, reminders ------------------------------------------------------

  function CompleteEnded(db: Store, now: int): Store {
    map id | id in db ::
      if Active(db[id]) && db[id].endAt <= now then CompleteFields(db[id]) else db[id]
  }

  /** The reminder worker re-reads the booking, and mails both parties or nobody. */
  function ReminderEmails(w: World, id: nat, now: int, partiesFound: bool): seq<nat> {
    if id !in w.bookings then []
    else
      var b := w.bookings[id];
      if !Active(b) || b.endAt <= now || !partiesFound then [] else [b.userId, b.hrUserId]
  }

  /** A due job leaves the queue. */
  function TakeReminder(w: World, id: nat, now: int): World {
    if id in w.reminders && w.reminders[id] <= now then w.(reminders := w.reminders - {id}) else w
  }

  datatype Request =
    | CreateRequest(userId: nat, profile: Option<Profile>, startAt: int, now: int, later: int, id: nat)
    | CancelRequest(actor: Actor, id: nat, now: int, works: bool)
    | RescheduleRequest(actor: Actor, id: nat, startAt: int, now: int, later: int, works: bool)
    | LifecycleSweep(now: int)
    | ScheduleUpdate(hrUserId: nat, config: SlotConfig)
    | ReminderFires(id: nat, now: int)

  /** New bookings get new ids, and schedules are well-formed. */
  ghost predicate Admissible(w: World, q: Request) {
    match q
    case CreateRequest(_, _, _, _, _, id) => id !in w.bookings
    case ScheduleUpdate(_, c) => WellFormed(c)
    case _ => true
  }

  /** No queue removal fails. */
  predicate QueueWorks(q: Request) {
    match q
    case CancelRequest(_, _, _, works) => works
    case RescheduleRequest(_, _, _, _, _, works) => works
    case _ => true
  }

  ghost function Serve(w: World, q: Request): World
    requires AllWellFormed(w.schedules)
  {
    match q
    case CreateRequest(userId, profile, startAt, now, later, id) =>
      Create(w, userId, profile, startAt, now, later, id)
    case CancelRequest(actor, id, now, works) => Cancel(w, actor, id, now, works)
    case RescheduleRequest(actor, id, startAt, now, later, works) =>
      Reschedule(w, actor, id, startAt, now, later, works)
    case LifecycleSweep(now) => w.(bookings := CompleteEnded(w.bookings, now))
    case ScheduleUpdate(hr, c) => w.(schedules := w.schedules[hr := c])
    case ReminderFires(id, now) => TakeReminder(w, id, now)
  }

  // ----- What holds after every request ---------------------------------------------------------

  predicate BookingSound(b: Booking) {
    && 0 < b.durationMinutes
    && b.endAt == AddMinutes(b.startAt, b.durationMinutes)
    && b.rescheduleCount <= RESCHEDULE_MAX
    && KeyMatches(b)
  }

  /** No overlap per consultant or per client, and every document is consistent. */
  predicate CalendarSafe(db: Store) {
    && (forall id | id in db :: BookingSound(db[id]))
    && ConsultantsDisjoint(db)
    && ClientsDisjoint(db)
  }

  /** Every pending reminder is for a booking that was not cancelled, 30 minutes before its start. */
  predicate RemindersAgree(w: World) {
    forall id | id in w.reminders ::
      && id in w.bookings && !w.bookings[id].status.Cancelled?
      && w.reminders[id] == w.bookings[id].startAt - REMINDER_LEAD
  }

  ghost predicate Safe(w: World) {
    AllWellFormed(w.schedules) && CalendarSafe(w.bookings)
  }

  /** A booking that is free for both its parties fits into a safe calendar. */
  lemma PutSafe(db: Store, id: nat, b: Booking)
    requires CalendarSafe(db) && BookingSound(b)
    requires Active(b) ==>
      && Free(db, Client(b.userId), b.startAt, b.endAt, Some(id))
      && Free(db, Consultant(b.hrUserId), b.startAt, b.endAt, Some(id))
    ensures CalendarSafe(db[id := b])
  {
    var db' := db[id := b];
    forall j | j in db && j != id && Active(db[j]) && Active(b)
      ensures db[j].hrUserId == b.hrUserId ==> Apart(b, db[j]) && Apart(db[j], b)
      ensures db[j].userId == b.userId ==> Apart(b, db[j]) && Apart(db[j], b)
    {
      assert !Conflicts(db, Client(b.userId), b.startAt, b.endAt, Some(id), j);
      assert !Conflicts(db, Consultant(b.hrUserId), b.startAt, b.endAt, Some(id), j);
    }
  }

  lemma FreeExcluding(db: Store, owner: Owner, startAt: int, endAt: int, id: nat)
    requires id !in db
    ensures Free(db, owner, startAt, endAt, None) <==> Free(db, owner, startAt, endAt, Some(id))
  {
    forall j | j in db
      ensures Conflicts(db, owner, startAt, endAt, None, j) <==> Conflicts(db, owner, startAt, endAt, Some(id), j)
    {
    }
  }

  lemma CreateSafe(w: World, userId: nat, profile: Option<Profile>, startAt: int, now: int, later: int, id: nat)
    requires Safe(w) && id !in w.bookings
    ensures var w' := Create(w, userId, profile, startAt, now, later, id);
      Safe(w') && (RemindersAgree(w) ==> RemindersAgree(w'))
  {
    if CreateResult(w, userId, profile, startAt, now, id).Ok? {
      var hr := profile.value.userId;
      var b := NewFor(w, userId, hr, startAt);
      FreeExcluding(w.bookings, Client(userId), b.startAt, b.endAt, id);
      FreeExcluding(w.bookings, Consultant(hr), b.startAt, b.endAt, id);
      PutSafe(w.bookings, id, b);
    }
  }

  lemma CancelSafe(w: World, actor: Actor, id: nat, now: int, works: bool)
    requires Safe(w)
    ensures var w' := Cancel(w, actor, id, now, works);
      Safe(w') && (RemindersAgree(w) && works ==> RemindersAgree(w'))
  {
    if CancelResult(w, actor, id, now).Ok? {
      PutSafe(w.bookings, id, CancelFields(w.bookings[id]));
    }
  }

  lemma RescheduleSafe(w: World, actor: Actor, id: nat, startAt: int, now: int, later: int, works: bool)
    requires Safe(w)
    ensures var w' := Reschedule(w, actor, id, startAt, now, later, works);
      Safe(w') && (RemindersAgree(w) && works ==> RemindersAgree(w'))
  {
    if RescheduleResult(w, actor, id, startAt, now).Ok? {
      var b := w.bookings[id];
      PutSafe(w.bookings, id, MoveFields(b, b, startAt, ConfigOf(w, b.hrUserId).slotDurationMinutes));
    }
  }

  lemma CompleteSafe(w: World, now: int)
    requires Safe(w)
    ensures var w' := w.(bookings := CompleteEnded(w.bookings, now));
      Safe(w') && (RemindersAgree(w) ==> RemindersAgree(w'))
  {
  }

  lemma ServeSafe(w: World, q: Request)
    requires Safe(w) && Admissible(w, q)
    ensures Safe(Serve(w, q))
    ensures RemindersAgree(w) && QueueWorks(q) ==> RemindersAgree(Serve(w, q))
  {
    match q
    case CreateRequest(userId, profile, startAt, now, later, id) =>
      CreateSafe(w, userId, profile, startAt, now, later, id);
    case CancelRequest(actor, id, now, works) => CancelSafe(w, actor, id, now, works);
    case RescheduleRequest(actor, id, startAt, now, later, works) =>
      RescheduleSafe(w, actor, id, startAt, now, later, works);
    case LifecycleSweep(now) => CompleteSafe(w, now);
    case ScheduleUpdate(_, _) =>
    case ReminderFires(_, _) =>
  }

  /** The worlds a sequence of requests goes through. */
  ghost predicate IsHistory(worlds: seq<World>, requests: seq<Request>) {
    && |worlds| == |requests| + 1
    && (forall i | 0 <= i < |worlds| :: AllWellFormed(worlds[i].schedules))
    && forall i | 0 <= i < |requests| ::
         Admissible(worlds[i], requests[i]) && worlds[i + 1] == Serve(worlds[i], requests[i])
  }

  /** From an empty store, no world of any history has overlapping active bookings of a
      consultant or of a client, whatever the schedules become in between. */
  lemma {:induction false} HistorySafe(worlds: seq<World>, requests: seq<Request>, i: nat)
    requires IsHistory(worlds, requests) && i < |worlds| && worlds[0].bookings == map[]
    ensures Safe(worlds[i])
  {
    if 0 < i {
      HistorySafe(worlds, requests, i - 1);
      ServeSafe(worlds[i - 1], requests[i - 1]);
    }
  }

  /** The starts a booking has had, each once it changed: what an observer of the worlds sees. */
  ghost function Trail(worlds: seq<World>, i: nat, id: nat): seq<int>
    requires i < |worlds|
  {
    if id !in worlds[i].bookings then []
    else
      var startAt := worlds[i].bookings[id].startAt;
      if i == 0 || id !in worlds[i - 1].bookings then [startAt]
      else if startAt != worlds[i - 1].bookings[id].startAt then Trail(worlds, i - 1, id) + [startAt]
      else Trail(worlds, i - 1, id)
  }

  /** The booking remembers its trail: how often it moved, and where it was before. */
  ghost predicate Remembers(b: Booking, trail: seq<int>) {
    && |trail| == b.rescheduleCount + 1
    && trail[|trail| - 1] == b.startAt
    && b.previousStartAt == if |trail| == 1 then None else Some(trail[|trail| - 2])
  }

  /** A request leaves a booking where it is, parties and record included, or moves it and says so. */
  lemma ServeRecords(w: World, q: Request, id: nat)
    requires AllWellFormed(w.schedules) && Admissible(w, q) && id in w.bookings
    ensures id in Serve(w, q).bookings
    ensures var b, b' := w.bookings[id], Serve(w, q).bookings[id];
      && b'.userId == b.userId && b'.hrUserId == b.hrUserId
      && if b'.startAt == b.startAt
         then b'.rescheduleCount == b.rescheduleCount && b'.previousStartAt == b.previousStartAt
         else b'.rescheduleCount == b.rescheduleCount + 1 && b'.previousStartAt == Some(b.startAt)
  {
  }

  lemma ServeAdds(w: World, q: Request, id: nat)
    requires AllWellFormed(w.schedules) && id !in w.bookings && id in Serve(w, q).bookings
    ensures var b := Serve(w, q).bookings[id]; b.rescheduleCount == 0 && b.previousStartAt == None
  {
  }

  /** In every world of a history, a booking's count is the number of times its start changed,
      and its previous start is the one before the latest change. */
  lemma {:induction false} HistoryRemembered(worlds: seq<World>, requests: seq<Request>, i: nat, id: nat)
    requires IsHistory(worlds, requests) && i < |worlds|
    requires worlds[0].bookings == map[] && id in worlds[i].bookings
    ensures Remembers(worlds[i].bookings[id], Trail(worlds, i, id))
  {
    if id in worlds[i - 1].bookings {
      HistoryRemembered(worlds, requests, i - 1, id);
      ServeRecords(worlds[i - 1], requests[i - 1], id);
    } else {
      ServeAdds(worlds[i - 1], requests[i - 1], id);
    }
  }

  /** In a safe world neither layer of double-booking protection ever has to act: after the
      checks the index holds no such key and the sweep finds nothing. */
  lemma ProtectionNeverFires(w: World, userId: nat, profile: Option<Profile>, startAt: int, now: int, id: nat)
    requires Safe(w) && id !in w.bookings
    requires CreateResult(w, userId, profile, startAt, now, id).Ok?
    ensures var b := NewFor(w, userId, profile.value.userId, startAt);
      && !KeyTaken(w.bookings, b.slotKey.value, None)
      && Free(w.bookings[id := b], Consultant(b.hrUserId), b.startAt, b.endAt, Some(id))
  {
    var hr := profile.value.userId;
    var b := NewFor(w, userId, hr, startAt);
    forall j | j in w.bookings ensures w.bookings[j].slotKey != b.slotKey {
      assert !Conflicts(w.bookings, Consultant(hr), b.startAt, b.endAt, None, j);
    }
    forall j | j in w.bookings
      ensures !Conflicts(w.bookings[id := b], Consultant(hr), b.startAt, b.endAt, Some(id), j)
    {
      assert !Conflicts(w.bookings, Consultant(hr), b.startAt, b.endAt, None, j);
    }
  }

  /** In a safe calendar a free time has a free key. */
  lemma FreeLeavesKey(db: Store, id: nat, startAt: int, d: int)
    requires CalendarSafe(db) && id in db && 0 < d
    requires Free(db, Consultant(db[id].hrUserId), startAt, AddMinutes(startAt, d), Some(id))
    ensures !KeyTaken(db, SlotKey(db[id].hrUserId, startAt), Some(id))
  {
    var hr := db[id].hrUserId;
    forall j | j in db && j != id
      ensures db[j].slotKey != Some(SlotKey(hr, startAt))
    {
      assert !Conflicts(db, Consultant(hr), startAt, AddMinutes(startAt, d), Some(id), j);
    }
  }

  /** Nor does the index refuse a reschedule that passed its checks. */
  lemma MoveKeyFree(w: World, actor: Actor, id: nat, startAt: int, now: int)
    requires Safe(w) && RescheduleResult(w, actor, id, startAt, now).Ok?
    ensures !KeyTaken(w.bookings, SlotKey(w.bookings[id].hrUserId, startAt), Some(id))
  {
    FreeLeavesKey(w.bookings, id, startAt, ConfigOf(w, w.bookings[id].hrUserId).slotDurationMinutes);
  }

  /** A create and a permitted cancel of it leave every listing as it was. */
  lemma CreateThenCancelRestores(w: World, create: Request, actor: Actor, cancelledAt: int, works: bool,
      hr: nat, from: int, to: int, now: int, before: seq<Span>, after: seq<Span>)
    requires Safe(w) && create.CreateRequest? && create.id !in w.bookings
    requires CancelResult(Serve(w, create), actor, create.id, cancelledAt).Ok?
    requires IsListing(w.bookings, hr, ConfigOf(w, hr), from, to, now, before)
    requires IsListing(Cancel(Serve(w, create), actor, create.id, cancelledAt, works).bookings,
      hr, ConfigOf(w, hr), from, to, now, after)
    ensures before == after
  {
    var db, db' := w.bookings, Cancel(Serve(w, create), actor, create.id, cancelledAt, works).bookings;
    assert !Active(db'[create.id]);
    forall x ensures FetchedClear(db, hr, from, to, x) <==> FetchedClear(db', hr, from, to, x) {
      assert forall j | j in db :: db'[j] == db[j];
    }
    SameSlots(before, after);
  }
}
