/** The reminder queue against the bookings (src/services/booking.service.ts,
    src/queues/reminder.queue.ts, src/jobs/reminder.job.ts). */
module Reminders {
  import opened Wrappers
  import opened Datetime
  import opened Availability
  import opened Bookings
  import opened Slots
  import opened Listing
  import opened SlotLaws
  import opened BookingRequests

  // ----- No reminder too many --------------------------------------------------------------

  /** While no queue removal fails, the pending reminders of every world agree with its bookings. */
  lemma {:induction false} HistoryRemindersAgree(worlds: seq<World>, requests: seq<Request>, i: nat)
    requires IsHistory(worlds, requests) && i < |worlds|
    requires worlds[0].bookings == map[] && worlds[0].reminders == map[]
    requires forall k | 0 <= k < |requests| :: QueueWorks(requests[k])
    ensures RemindersAgree(worlds[i])
  {
    if 0 < i {
      HistoryRemindersAgree(worlds, requests, i - 1);
      HistorySafe(worlds, requests, i - 1);
      ServeSafe(worlds[i - 1], requests[i - 1]);
    }
  }

  // ----- No reminder missing ---------------------------------------------------------------

  /** Every active booking has a pending reminder, unless it was already due by `clock`. */
  predicate RemindersComplete(w: World, clock: int) {
    forall id | id in w.bookings && Active(w.bookings[id]) ::
      id in w.reminders || w.bookings[id].startAt - REMINDER_LEAD <= clock
  }

  /** The request is served between `from` and `to`. */
  predicate Timed(q: Request, from: int, to: int) {
    match q
    case CreateRequest(_, _, _, now, later, _) => from <= now <= later <= to
    case CancelRequest(_, _, now, _) => from <= now <= to
    case RescheduleRequest(_, _, _, now, later, _) => from <= now <= later <= to
    case LifecycleSweep(now) => from <= now <= to
    case ScheduleUpdate(_, _) => from <= to
    case ReminderFires(_, now) => from <= now <= to
  }

  lemma RescheduleComplete(w: World, actor: Actor, id: nat, startAt: int, now: int, later: int, works: bool)
    requires AllWellFormed(w.schedules) && RemindersComplete(w, now) && now <= later
    ensures RemindersComplete(Reschedule(w, actor, id, startAt, now, later, works), later)
  {
    var w' := Reschedule(w, actor, id, startAt, now, later, works);
    forall j | j in w'.bookings && Active(w'.bookings[j])
      ensures j in w'.reminders || w'.bookings[j].startAt - REMINDER_LEAD <= later
    {
      assert j != id ==> w'.bookings[j] == w.bookings[j];
    }
  }

  lemma ServeComplete(w: World, q: Request, from: int, to: int)
    requires AllWellFormed(w.schedules) && RemindersAgree(w) && RemindersComplete(w, from)
    requires Timed(q, from, to)
    ensures RemindersComplete(Serve(w, q), to)
  {
    match q
    case RescheduleRequest(actor, id, startAt, now, later, works) =>
      RescheduleComplete(w, actor, id, startAt, now, later, works);
    case _ =>
  }

  /** The clock reads `clock[i]` or less before request `i`, and `clock[i + 1]` or more after it. */
  predicate OnClock(requests: seq<Request>, clock: seq<int>) {
    && |clock| == |requests| + 1
    && forall i | 0 <= i < |requests| :: Timed(requests[i], clock[i], clock[i + 1])
  }

  lemma {:induction false} HistoryComplete(worlds: seq<World>, requests: seq<Request>, clock: seq<int>, i: nat)
    requires IsHistory(worlds, requests) && OnClock(requests, clock) && i < |worlds|
    requires worlds[0].bookings == map[] && worlds[0].reminders == map[]
    requires forall k | 0 <= k < |requests| :: QueueWorks(requests[k])
    ensures RemindersComplete(worlds[i], clock[i])
  {
    if 0 < i {
      HistoryComplete(worlds, requests, clock, i - 1);
      HistoryRemindersAgree(worlds, requests, i - 1);
      ServeComplete(worlds[i - 1], requests[i - 1], clock[i - 1], clock[i]);
    }
  }

  /** While no queue removal fails, at every moment of a history each active booking has exactly
      one pending reminder, 30 minutes before its stored start, unless that moment has passed. */
  lemma HistoryReminded(worlds: seq<World>, requests: seq<Request>, clock: seq<int>, i: nat, id: nat)
    requires IsHistory(worlds, requests) && OnClock(requests, clock) && i < |worlds|
    requires worlds[0].bookings == map[] && worlds[0].reminders == map[]
    requires forall k | 0 <= k < |requests| :: QueueWorks(requests[k])
    requires id in worlds[i].bookings && Active(worlds[i].bookings[id])
    requires clock[i] < worlds[i].bookings[id].startAt - 1_800_000
    ensures id in worlds[i].reminders
    ensures worlds[i].reminders[id] == worlds[i].bookings[id].startAt - 1_800_000
  {
    HistoryComplete(worlds, requests, clock, i);
    HistoryRemindersAgree(worlds, requests, i);
  }

  // ----- No reminder twice -------------------------------------------------------------------

  /** The booking's reminder is due and taken from the queue. */
  predicate FiresIt(w: World, q: Request, id: nat) {
    q.ReminderFires? && q.id == id && id in w.reminders && w.reminders[id] <= q.now
  }

  ghost predicate MovesIt(w: World, q: Request, id: nat)
    requires AllWellFormed(w.schedules)
  {
    q.RescheduleRequest? && q.id == id && RescheduleResult(w, q.actor, id, q.startAt, q.now).Ok?
  }

  /** A due reminder leaves the queue, and only that one. */
  lemma FiringTakes(w: World, q: Request, id: nat)
    requires AllWellFormed(w.schedules) && q.ReminderFires?
    ensures id in Serve(w, q).reminders <==> id in w.reminders && !FiresIt(w, q, id)
    ensures Serve(w, q).bookings == w.bookings
  {
  }

  /** A stored booking without a reminder gets none but by being moved. */
  lemma NoneComesBack(w: World, q: Request, id: nat)
    requires AllWellFormed(w.schedules) && Admissible(w, q)
    requires id in w.bookings && id !in w.reminders && !MovesIt(w, q, id)
    ensures id in Serve(w, q).bookings && id !in Serve(w, q).reminders
  {
  }

  lemma {:induction false} OnlyStored(worlds: seq<World>, requests: seq<Request>, i: nat)
    requires IsHistory(worlds, requests) && i < |worlds|
    requires worlds[0].bookings == map[] && worlds[0].reminders == map[]
    ensures worlds[i].reminders.Keys <= worlds[i].bookings.Keys
  {
    if 0 < i {
      OnlyStored(worlds, requests, i - 1);
    }
  }

  lemma {:induction false} GoneUntilMoved(worlds: seq<World>, requests: seq<Request>, i: nat, j: nat, id: nat)
    requires IsHistory(worlds, requests) && i <= j < |worlds|
    requires id in worlds[i].bookings && id !in worlds[i].reminders
    requires forall k | i <= k < j :: !MovesIt(worlds[k], requests[k], id)
    ensures id in worlds[j].bookings && id !in worlds[j].reminders
    decreases j - i
  {
    if i < j {
      GoneUntilMoved(worlds, requests, i, j - 1, id);
      NoneComesBack(worlds[j - 1], requests[j - 1], id);
    }
  }

  /** Over any history a booking's reminder fires twice only if the booking was moved in between. */
  lemma FiresOncePerStart(worlds: seq<World>, requests: seq<Request>, i: nat, j: nat, id: nat)
    requires IsHistory(worlds, requests) && i < j < |requests|
    requires worlds[0].bookings == map[] && worlds[0].reminders == map[]
    requires FiresIt(worlds[i], requests[i], id) && FiresIt(worlds[j], requests[j], id)
    ensures exists k | i < k < j :: MovesIt(worlds[k], requests[k], id)
  {
    OnlyStored(worlds, requests, i);
    FiringTakes(worlds[i], requests[i], id);
    if forall k | i + 1 <= k < j :: !MovesIt(worlds[k], requests[k], id) {
      GoneUntilMoved(worlds, requests, i + 1, j, id);
    }
  }

  // ----- The reminder after a reschedule -----------------------------------------------------

  /** The booking's reminder is the one its stored start asks for at `clock`. */
  predicate ReminderRight(w: World, id: nat, clock: int)
    requires id in w.bookings
  {
    var due := w.bookings[id].startAt - REMINDER_LEAD;
    if clock < due then id in w.reminders && w.reminders[id] == due else id !in w.reminders
  }

  /** After a reschedule the moved booking has the reminder it should have exactly when the old
      one could be removed or there was none; and only then do all reminders agree. */
  lemma ReminderRightIff(w: World, actor: Actor, id: nat, startAt: int, now: int, later: int, works: bool)
    requires Safe(w) && RemindersAgree(w) && RescheduleResult(w, actor, id, startAt, now).Ok?
    ensures var w' := Reschedule(w, actor, id, startAt, now, later, works);
      && (ReminderRight(w', id, later) <==> works || id !in w.reminders)
      && (RemindersAgree(w') <==> works || id !in w.reminders)
  {
    var w' := Reschedule(w, actor, id, startAt, now, later, works);
    assert w'.bookings[id].startAt == startAt != w.bookings[id].startAt;
  }

  /** Half-hour slots at ten and at eleven on day 1, kept by consultant 2. */
  function TenAndEleven(): SlotConfig {
    TwoSlotConfig(FixedOffset(0), 30, 1, 600, 1, 660)
  }

  const TEN := DAY + 600 * MINUTE

  const ELEVEN := DAY + 660 * MINUTE

  lemma ElevenOffered()
    ensures var c := TenAndEleven();
      WellFormed(c) && c.slotDurationMinutes == 30 && GateOpen(c, 0, ELEVEN)
  {
    FixedOffsetIsRegular(0);
    TwoSlotConfigOffers(FixedOffset(0), 30, 1, 600, 1, 660);
    OfferOnGrid(TenAndEleven(), 1, 660);
    assert StartOf(TenAndEleven(), 1, 660) == ELEVEN;
  }

  /** Client 1 has booked ten o'clock and will be reminded. */
  function BookedAtTen(c: SlotConfig): World {
    World(map[0 := NewBooking(1, 2, TEN, 30)], map[2 := c], map[0 := TEN - REMINDER_LEAD])
  }

  lemma BookedAtTenSafe(c: SlotConfig)
    requires WellFormed(c)
    ensures Safe(BookedAtTen(c)) && RemindersAgree(BookedAtTen(c))
  {
  }

  lemma ElevenAccepted(c: SlotConfig)
    requires WellFormed(c) && c.slotDurationMinutes == 30 && GateOpen(c, 0, ELEVEN)
    ensures RescheduleResult(BookedAtTen(c), Actor(1, false), 0, ELEVEN, 0) == Ok(0)
  {
    var w := BookedAtTen(c);
    assert Free(w.bookings, Client(1), ELEVEN, ELEVEN + 30 * MINUTE, Some(0));
    assert Free(w.bookings, Consultant(2), ELEVEN, ELEVEN + 30 * MINUTE, Some(0));
  }

  lemma ReminderForTenStays(c: SlotConfig)
    requires WellFormed(c) && c.slotDurationMinutes == 30 && GateOpen(c, 0, ELEVEN)
    ensures var w := BookedAtTen(c); var w' := Reschedule(w, Actor(1, false), 0, ELEVEN, 0, 0, false);
      && Safe(w) && RemindersAgree(w)
      && w'.bookings[0].startAt == ELEVEN && w'.reminders == map[0 := TEN - REMINDER_LEAD]
      && !RemindersAgree(w')
  {
    BookedAtTenSafe(c);
    ElevenAccepted(c);
    ReminderRightIff(BookedAtTen(c), Actor(1, false), 0, ELEVEN, 0, 0, false);
  }

  /** The move to eleven is accepted, but with its removal failing the reminder for ten stays. */
  lemma StaleReminder()
    ensures WellFormed(TenAndEleven())
    ensures var w, actor := BookedAtTen(TenAndEleven()), Actor(1, false);
      && Safe(w) && RemindersAgree(w) && RescheduleResult(w, actor, 0, ELEVEN, 0) == Ok(0)
      && var w' := Reschedule(w, actor, 0, ELEVEN, 0, 0, false);
      && w'.bookings[0].startAt == ELEVEN && w'.reminders == map[0 := TEN - REMINDER_LEAD]
      && !RemindersAgree(w')
  {
    ElevenOffered();
    ElevenAccepted(TenAndEleven());
    ReminderForTenStays(TenAndEleven());
  }
}
