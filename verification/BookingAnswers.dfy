/** What each booking request answers and does, in the terms of the stored documents: ids, instants
    in milliseconds and statuses (src/services/booking.service.ts, src/jobs). */
module BookingAnswers {
  import opened Wrappers
  import opened Availability
  import opened Bookings
  import opened Listing
  import opened BookingRequests

  // ----- Who and when -------------------------------------------------------------------------

  predicate Open(b: Booking) {
    b.status == Pending || b.status == Confirmed
  }

  /** Another open booking of the client lies across the time. */
  predicate ClientBooked(db: Store, userId: nat, from: int, to: int, except: set<nat>) {
    exists j | j in db && j !in except ::
      db[j].userId == userId && Open(db[j]) && db[j].startAt < to && from < db[j].endAt
  }

  predicate ConsultantBooked(db: Store, hr: nat, from: int, to: int, except: set<nat>) {
    exists j | j in db && j !in except ::
      db[j].hrUserId == hr && Open(db[j]) && db[j].startAt < to && from < db[j].endAt
  }

  function Except(exclude: Option<nat>): set<nat> {
    if exclude.Some? then {exclude.value} else {}
  }

  lemma FreeIff(db: Store, who: nat, from: int, to: int, exclude: Option<nat>)
    ensures Free(db, Client(who), from, to, exclude) <==> !ClientBooked(db, who, from, to, Except(exclude))
    ensures Free(db, Consultant(who), from, to, exclude) <==> !ConsultantBooked(db, who, from, to, Except(exclude))
  {
    forall j | j in db
      ensures Conflicts(db, Client(who), from, to, exclude, j) <==>
        j !in Except(exclude) && db[j].userId == who && Open(db[j]) && db[j].startAt < to && from < db[j].endAt
      ensures Conflicts(db, Consultant(who), from, to, exclude, j) <==>
        j !in Except(exclude) && db[j].hrUserId == who && Open(db[j]) && db[j].startAt < to && from < db[j].endAt
    {
    }
  }

  /** The booking is the actor's own, on either side, or the actor is an administrator. */
  predicate MayTouch(w: World, actor: Actor, id: nat) {
    id in w.bookings
    && (w.bookings[id].userId == actor.id || w.bookings[id].hrUserId == actor.id || actor.isAdmin)
  }

  lemma RoleIff(actor: Actor, b: Booking)
    ensures RoleOf(actor, b) == Some(ClientRole) <==> actor.id == b.userId
    ensures RoleOf(actor, b) == Some(ConsultantRole) <==> actor.id == b.hrUserId && actor.id != b.userId
    ensures RoleOf(actor, b) == Some(AdminRole) <==> actor.id != b.userId && actor.id != b.hrUserId && actor.isAdmin
    ensures RoleOf(actor, b) == None <==> actor.id != b.userId && actor.id != b.hrUserId && !actor.isAdmin
  {
  }

  // ----- Create ---------------------------------------------------------------------------------

  /** The consultant's schedule takes the start. */
  ghost predicate Takes(w: World, hr: nat, now: int, s: int)
    requires AllWellFormed(w.schedules)
  {
    hr in w.schedules && GateOpen(w.schedules[hr], now, s)
  }

  lemma TakesIff(w: World, hr: nat, now: int, s: int)
    requires AllWellFormed(w.schedules)
    ensures Takes(w, hr, now, s) <==> GateOpen(ConfigOf(w, hr), now, s)
  {
  }

  function SlotEnd(w: World, hr: nat, s: int): int
    requires hr in w.schedules
  {
    s + w.schedules[hr].slotDurationMinutes * 60_000
  }

  /** A create is refused for the first of these reasons that applies, and accepted when none does. */
  lemma CreateAnswers(w: World, userId: nat, profile: Option<Profile>, s: int, now: int, id: nat)
    requires AllWellFormed(w.schedules)
    ensures var r := CreateResult(w, userId, profile, s, now, id);
      if profile.None? then r == Err(NotFound)
      else
        var hr := profile.value.userId;
        if !profile.value.isAvailable then r == Err(NotAccepting)
        else if hr == userId then r == Err(SelfBooking)
        else if !Takes(w, hr, now, s) then r == Err(NotOffered)
        else if ClientBooked(w.bookings, userId, s, SlotEnd(w, hr, s), {}) then r == Err(ClientBusy)
        else if ConsultantBooked(w.bookings, hr, s, SlotEnd(w, hr, s), {}) then r == Err(SlotUnavailable)
        else r == Ok(id)
  {
    if profile.Some? {
      var hr := profile.value.userId;
      TakesIff(w, hr, now, s);
      if Takes(w, hr, now, s) {
        FreeIff(w.bookings, userId, s, SlotEnd(w, hr, s), None);
        FreeIff(w.bookings, hr, s, SlotEnd(w, hr, s), None);
      }
    }
  }

  // ----- Cancel ---------------------------------------------------------------------------------

  /** Strangers learn nothing; a client gives an hour's notice; others cancel until the start. */
  lemma CancelAnswers(w: World, actor: Actor, id: nat, now: int, works: bool)
    ensures var r := CancelResult(w, actor, id, now);
      if !MayTouch(w, actor, id) then r == Err(NotFound) && Cancel(w, actor, id, now, works) == w
      else
        var b := w.bookings[id];
        if !Open(b) then r == Err(NotActive)
        else if b.startAt <= now then r == Err(AlreadyStarted)
        else if actor.id == b.userId && b.startAt < now + 3_600_000 then r == Err(TooLate)
        else if actor.id == b.userId then r == Ok(ClientRole)
        else if actor.id == b.hrUserId then r == Ok(ConsultantRole)
        else r == Ok(AdminRole)
    ensures CancelResult(w, actor, id, now).Err? ==> Cancel(w, actor, id, now, works) == w
  {
    if id in w.bookings {
      RoleIff(actor, w.bookings[id]);
    }
  }

  // ----- Reschedule -----------------------------------------------------------------------------

  lemma RescheduleAnswers(w: World, actor: Actor, id: nat, s: int, now: int, later: int, works: bool)
    requires AllWellFormed(w.schedules)
    ensures var r := RescheduleResult(w, actor, id, s, now);
      if !MayTouch(w, actor, id) then r == Err(NotFound)
      else
        var b := w.bookings[id];
        if !Open(b) then r == Err(NotActive)
        else if b.startAt <= now then r == Err(AlreadyStarted)
        else if 3 <= b.rescheduleCount then r == Err(TooManyMoves)
        else if s == b.startAt then r == Err(SameTime)
        else if !Takes(w, b.hrUserId, now, s) then r == Err(NotOffered)
        else if ClientBooked(w.bookings, b.userId, s, SlotEnd(w, b.hrUserId, s), {id}) then r == Err(ClientBusy)
        else if ConsultantBooked(w.bookings, b.hrUserId, s, SlotEnd(w, b.hrUserId, s), {id})
        then r == Err(SlotUnavailable)
        else r == Ok(id)
    ensures RescheduleResult(w, actor, id, s, now).Err? ==> Reschedule(w, actor, id, s, now, later, works) == w
  {
    if id in w.bookings {
      var b := w.bookings[id];
      RoleIff(actor, b);
      TakesIff(w, b.hrUserId, now, s);
      if Takes(w, b.hrUserId, now, s) {
        FreeIff(w.bookings, b.userId, s, SlotEnd(w, b.hrUserId, s), Some(id));
        FreeIff(w.bookings, b.hrUserId, s, SlotEnd(w, b.hrUserId, s), Some(id));
      }
    }
  }

  // ----- What a request leaves behind -----------------------------------------------------------

  /** Nothing about the booking but its status and key is different. */
  predicate SameButReleased(b: Booking, b': Booking) {
    && b'.userId == b.userId && b'.hrUserId == b.hrUserId
    && b'.startAt == b.startAt && b'.endAt == b.endAt && b'.durationMinutes == b.durationMinutes
    && b'.rescheduleCount == b.rescheduleCount && b'.previousStartAt == b.previousStartAt
  }

  /** No request but its own touches a booking. */
  ghost predicate OthersKept(w: World, w': World, ids: set<nat>) {
    && w'.schedules == w.schedules
    && w'.bookings.Keys == w.bookings.Keys + ids
    && forall j | j in w.bookings && j !in ids :: w'.bookings[j] == w.bookings[j]
  }

  /** A create that is accepted stores one confirmed booking of the slot's length under its key. */
  lemma CreateLeaves(w: World, userId: nat, profile: Option<Profile>, s: int, now: int, later: int, id: nat)
    requires AllWellFormed(w.schedules)
    ensures var w' := Create(w, userId, profile, s, now, later, id);
      if CreateResult(w, userId, profile, s, now, id).Err? then w' == w
      else
        var hr := profile.value.userId;
        && OthersKept(w, w', {id}) && hr in w.schedules
        && var b := w'.bookings[id];
           && b.userId == userId && b.hrUserId == hr && b.status == Confirmed
           && b.startAt == s && b.endAt == SlotEnd(w, hr, s)
           && b.durationMinutes == w.schedules[hr].slotDurationMinutes
           && b.slotKey == Some(SlotKey(hr, s)) && b.rescheduleCount == 0 && b.previousStartAt == None
  {
    if profile.Some? {
      TakesIff(w, profile.value.userId, now, s);
    }
  }

  lemma CancelLeaves(w: World, actor: Actor, id: nat, now: int, works: bool)
    requires CancelResult(w, actor, id, now).Ok?
    ensures var w' := Cancel(w, actor, id, now, works);
      && id in w.bookings && OthersKept(w, w', {id}) && SameButReleased(w.bookings[id], w'.bookings[id])
      && w'.bookings[id].status == Cancelled && w'.bookings[id].slotKey == None
      && (works ==> id !in w'.reminders)
  {
  }

  lemma RescheduleLeaves(w: World, actor: Actor, id: nat, s: int, now: int, later: int, works: bool)
    requires AllWellFormed(w.schedules) && RescheduleResult(w, actor, id, s, now).Ok?
    ensures var w' := Reschedule(w, actor, id, s, now, later, works);
      && id in w.bookings && OthersKept(w, w', {id}) && w.bookings[id].hrUserId in w.schedules
      && var b, b' := w.bookings[id], w'.bookings[id];
         && b'.userId == b.userId && b'.hrUserId == b.hrUserId && b'.status == b.status
         && b'.startAt == s && b'.endAt == SlotEnd(w, b.hrUserId, s)
         && b'.durationMinutes == w.schedules[b.hrUserId].slotDurationMinutes
         && b'.slotKey == Some(SlotKey(b.hrUserId, s))
         && b'.previousStartAt == Some(b.startAt) && b'.rescheduleCount == b.rescheduleCount + 1
  {
    TakesIff(w, w.bookings[id].hrUserId, now, s);
  }

  /** After the lifecycle sweep no open booking has ended; it completed those and no others. */
  lemma SweepLeaves(db: Store, now: int, id: nat)
    requires id in db
    ensures CompleteEnded(db, now).Keys == db.Keys
    ensures var b, b' := db[id], CompleteEnded(db, now)[id];
      && SameButReleased(b, b') && !(Open(b') && b'.endAt <= now)
      && if Open(b) && b.endAt <= now then b'.status == Completed && b'.slotKey == None else b' == b
  {
  }

  /** Both participants are mailed, client first, exactly about an open booking that has not ended
      and whose participants are found. */
  lemma MailsIff(w: World, id: nat, now: int, partiesFound: bool)
    ensures var mails := ReminderEmails(w, id, now, partiesFound);
      if id in w.bookings && Open(w.bookings[id]) && now < w.bookings[id].endAt && partiesFound
      then mails == [w.bookings[id].userId, w.bookings[id].hrUserId] else mails == []
  {
  }

  // ----- Over histories ----------------------------------------------------------------------------

  predicate CancelsIt(w: World, q: Request, id: nat) {
    q.CancelRequest? && q.id == id && CancelResult(w, q.actor, id, q.now).Ok?
  }

  predicate CompletesIt(w: World, q: Request, id: nat) {
    q.LifecycleSweep? && id in w.bookings && w.bookings[id].status == Confirmed && w.bookings[id].endAt <= q.now
  }

  /** Before world `i` some request cancelled, or completed, the booking. */
  ghost predicate EverCancelled(worlds: seq<World>, requests: seq<Request>, i: nat, id: nat)
    requires |worlds| == |requests| + 1 && i < |worlds|
  {
    exists k | 0 <= k < i :: CancelsIt(worlds[k], requests[k], id)
  }

  ghost predicate EverCompleted(worlds: seq<World>, requests: seq<Request>, i: nat, id: nat)
    requires |worlds| == |requests| + 1 && i < |worlds|
  {
    exists k | 0 <= k < i :: CompletesIt(worlds[k], requests[k], id)
  }

  lemma StatusNext(w: World, q: Request, id: nat)
    requires AllWellFormed(w.schedules) && Admissible(w, q) && id in Serve(w, q).bookings
    requires id in w.bookings ==> !w.bookings[id].status.Pending?
    ensures var b' := Serve(w, q).bookings[id];
      b'.status == if CancelsIt(w, q, id) then Cancelled else if CompletesIt(w, q, id) then Completed
        else if id in w.bookings then w.bookings[id].status else Confirmed
  {
  }

  lemma NotBefore(w: World, q: Request, id: nat)
    requires id !in w.bookings
    ensures !CancelsIt(w, q, id) && !CompletesIt(w, q, id)
  {
  }

  /** A booking that was cancelled or completed can be neither any more. */
  lemma OnceOnly(w: World, q: Request, id: nat)
    requires id in w.bookings && (w.bookings[id].status == Cancelled || w.bookings[id].status == Completed)
    ensures !CancelsIt(w, q, id) && !CompletesIt(w, q, id)
  {
  }

  lemma BookingsStay(w: World, q: Request, id: nat)
    requires AllWellFormed(w.schedules) && id in w.bookings
    ensures id in Serve(w, q).bookings
  {
  }

  lemma {:induction false} AbsentBefore(worlds: seq<World>, requests: seq<Request>, k: nat, i: nat, id: nat)
    requires IsHistory(worlds, requests) && k <= i < |worlds| && id !in worlds[i].bookings
    ensures id !in worlds[k].bookings
    decreases i - k
  {
    if k < i {
      if id in worlds[i - 1].bookings {
        BookingsStay(worlds[i - 1], requests[i - 1], id);
      }
      AbsentBefore(worlds, requests, k, i - 1, id);
    }
  }

  lemma NeverBefore(worlds: seq<World>, requests: seq<Request>, i: nat, id: nat)
    requires IsHistory(worlds, requests) && i < |worlds| && id !in worlds[i].bookings
    ensures !EverCancelled(worlds, requests, i, id) && !EverCompleted(worlds, requests, i, id)
  {
    forall k | 0 <= k < i ensures !CancelsIt(worlds[k], requests[k], id) && !CompletesIt(worlds[k], requests[k], id) {
      AbsentBefore(worlds, requests, k, i, id);
      NotBefore(worlds[k], requests[k], id);
    }
  }

  lemma EverNext(worlds: seq<World>, requests: seq<Request>, i: nat, id: nat)
    requires |worlds| == |requests| + 1 && 0 < i < |worlds|
    ensures EverCancelled(worlds, requests, i, id)
      <==> EverCancelled(worlds, requests, i - 1, id) || CancelsIt(worlds[i - 1], requests[i - 1], id)
    ensures EverCompleted(worlds, requests, i, id)
      <==> EverCompleted(worlds, requests, i - 1, id) || CompletesIt(worlds[i - 1], requests[i - 1], id)
  {
  }

  /** In every world of a history a booking is cancelled exactly if it was once cancelled, completed
      exactly if a sweep once found it ended, and confirmed otherwise; never both. */
  lemma {:induction false} HistoryStatus(worlds: seq<World>, requests: seq<Request>, i: nat, id: nat)
    requires IsHistory(worlds, requests) && i < |worlds|
    requires worlds[0].bookings == map[] && id in worlds[i].bookings
    ensures !(EverCancelled(worlds, requests, i, id) && EverCompleted(worlds, requests, i, id))
    ensures worlds[i].bookings[id].status
      == if EverCancelled(worlds, requests, i, id) then Cancelled
         else if EverCompleted(worlds, requests, i, id) then Completed else Confirmed
  {
    var w, q := worlds[i - 1], requests[i - 1];
    EverNext(worlds, requests, i, id);
    if id in w.bookings {
      HistoryStatus(worlds, requests, i - 1, id);
      if w.bookings[id].status != Confirmed {
        OnceOnly(w, q, id);
      }
    } else {
      NeverBefore(worlds, requests, i - 1, id);
      NotBefore(w, q, id);
    }
    StatusNext(w, q, id);
  }
}
