/** The requests one at a time are runs of the protocol: taken without interruption, the atomic
    steps of a request leave the store as the request's specification says, and a whole history
    of requests is one interleaving. */
module SequentialRuns {
  import opened Wrappers
  import opened Datetime
  import opened Availability
  import opened Bookings
  import opened Listing
  import opened BookingProtocol
  import opened Races
  import opened CalendarSafety
  import Slots
  import R = BookingRequests
  import A = BookingAnswers

  /** The protocol state holds the same bookings and schedules as the world. */
  ghost predicate Mirrors(s: State, w: R.World) {
    && AllWellFormed(w.schedules)
    && s.db == w.bookings && s.schedules == SchedulesFor(w.schedules)
  }

  /** From `s`, request `r` has come and gone and the store is `db`. */
  ghost predicate Leaves(s: State, s': State, r: nat, db: Store) {
    && s'.db == db
    && s'.schedules == s.schedules
    && s'.requests == s.requests - {r}
    && s'.inserted.Keys == s.inserted.Keys + db.Keys
  }

  lemma DefaultOffersNothing(x: int)
    requires WellFormed(R.DefaultConfig())
    ensures !Slots.OnGrid(R.DefaultConfig(), x)
  {
  }

  /** Both models put the same gate in front of a write. */
  lemma SameGate(s: State, w: R.World, hr: nat, now: int, startAt: int)
    requires Mirrors(s, w)
    ensures Accepts(ScheduleOf(s, hr), now, startAt) <==> GateOpen(R.ConfigOf(w, hr), now, startAt)
    ensures ScheduleOf(s, hr).durationMinutes == R.ConfigOf(w, hr).slotDurationMinutes
  {
    if hr in w.schedules {
      GateIsOfferedSlot(w.schedules[hr], now, startAt);
    } else {
      DefaultOffersNothing(startAt);
    }
  }

  lemma RunFive(s: State, e1: Event, e2: Event, e3: Event, e4: Event, e5: Event)
    ensures Run(s, [e1] + [e2] + [e3] + [e4] + [e5])
      == Step(Step(Step(Step(Step(s, e1), e2), e3), e4), e5)
  {
    RunOne(s, e1);
    RunThen(s, [e1], e2);
    RunThen(s, [e1] + [e2], e3);
    RunThen(s, [e1] + [e2] + [e3], e4);
    RunThen(s, [e1] + [e2] + [e3] + [e4], e5);
  }

  /** Events of a request that is no longer in flight change nothing. */
  lemma Idle(s: State, r: nat, id: nat, found: Option<nat>, now: int)
    requires r !in s.requests
    ensures Step(s, ClientCheck(r)) == s && Step(s, ConsultantCheck(r)) == s
    ensures Step(s, Insert(r, id)) == s && Step(s, Sweep(r, found)) == s
    ensures Step(s, MoveGateCheck(r, now)) == s && Step(s, Move(r)) == s && Step(s, SaveCancel(r)) == s
  {
  }

  // ----- Create -------------------------------------------------------------------------------

  function CreateEvents(r: nat, now: int, userId: nat, hr: nat, startAt: int, id: nat): seq<Event> {
    [BeginCreate(r, now, userId, hr, startAt)] + [ClientCheck(r)] + [ConsultantCheck(r)] + [Insert(r, id)]
    + [Sweep(r, None)]
  }

  predicate TicketFree(db: Store, t: Ticket) {
    && Free(db, Client(t.userId), t.startAt, t.EndAt(), None)
    && Free(db, Consultant(t.hrUserId), t.startAt, t.EndAt(), None)
  }

  /** The two checks let a ticket through exactly when both parties are free. */
  lemma CreateChecks(s: State, r: nat, t: Ticket)
    requires r in s.requests && s.requests[r] == CreateCheckingClient(t)
    ensures var s' := Step(Step(s, ClientCheck(r)), ConsultantCheck(r));
      s' == if TicketFree(s.db, t) then Goto(s, r, Inserting(t)) else Finish(s, r)
  {
    var s1 := Step(s, ClientCheck(r));
    if r in s1.requests {
      assert s1 == Goto(s, r, CreateCheckingConsultant(t));
      assert s1.requests - {r} == s.requests - {r};
      assert s1.requests[r := Inserting(t)] == s.requests[r := Inserting(t)];
    } else {
      Idle(s1, r, 0, None, 0);
    }
  }

  /** Insert and sweep put the booking into the store when nothing stands in the way. */
  lemma CreateWrites(s: State, r: nat, t: Ticket, id: nat)
    requires r in s.requests && s.requests[r] == Inserting(t) && id !in s.inserted
    requires s.db.Keys <= s.inserted.Keys
    requires !KeyTaken(s.db, SlotKey(t.hrUserId, t.startAt), None)
    requires Free(s.db[id := t.Booked()], Consultant(t.hrUserId), t.startAt, t.EndAt(), Some(id))
    ensures Leaves(s, Step(Step(s, Insert(r, id)), Sweep(r, None)), r, s.db[id := t.Booked()])
  {
    InsertPasses(s, r, t, id);
    SweepPasses(Step(s, Insert(r, id)), r, t, id, None);
    assert s.requests[r := Sweeping(t, id)] - {r} == s.requests - {r};
  }

  ghost function CreateRest(s: State, r: nat, id: nat): State {
    Step(Step(Step(Step(s, ClientCheck(r)), ConsultantCheck(r)), Insert(r, id)), Sweep(r, None))
  }

  /** From the checks on: the booking is stored exactly when both its parties are free. */
  lemma CreateFromChecks(s: State, r: nat, t: Ticket, id: nat)
    requires r in s.requests && s.requests[r] == CreateCheckingClient(t) && id !in s.inserted
    requires s.db.Keys <= s.inserted.Keys
    requires TicketFree(s.db, t) ==>
      && !KeyTaken(s.db, SlotKey(t.hrUserId, t.startAt), None)
      && Free(s.db[id := t.Booked()], Consultant(t.hrUserId), t.startAt, t.EndAt(), Some(id))
    ensures Leaves(s, CreateRest(s, r, id), r, if TicketFree(s.db, t) then s.db[id := t.Booked()] else s.db)
  {
    CreateChecks(s, r, t);
    var s2 := Step(Step(s, ClientCheck(r)), ConsultantCheck(r));
    if TicketFree(s.db, t) {
      CreateWrites(s2, r, t, id);
      assert s2.requests - {r} == s.requests - {r};
    } else {
      Idle(s2, r, id, None, 0);
    }
  }

  predicate Accepting(profile: Option<R.Profile>) {
    profile.Some? && profile.value.isAvailable
  }

  function TicketFor(w: R.World, q: R.Request): Ticket
    requires q.CreateRequest? && Accepting(q.profile)
  {
    var hr := q.profile.value.userId;
    Ticket(q.userId, hr, q.startAt, R.ConfigOf(w, hr).slotDurationMinutes)
  }

  /** The guards of a create before its two checks. */
  ghost predicate CreateAllowed(w: R.World, q: R.Request)
    requires AllWellFormed(w.schedules) && q.CreateRequest? && Accepting(q.profile)
  {
    var hr := q.profile.value.userId;
    hr != q.userId && GateOpen(R.ConfigOf(w, hr), q.now, q.startAt)
  }

  lemma CreateStores(w: R.World, q: R.Request)
    requires AllWellFormed(w.schedules) && q.CreateRequest? && Accepting(q.profile)
    ensures R.Serve(w, q).bookings
      == if CreateAllowed(w, q) && TicketFree(w.bookings, TicketFor(w, q))
         then w.bookings[q.id := TicketFor(w, q).Booked()] else w.bookings
  {
  }

  lemma CreateBegins(s: State, w: R.World, r: nat, q: R.Request)
    requires Mirrors(s, w) && r !in s.requests && q.CreateRequest? && Accepting(q.profile)
    ensures Step(s, BeginCreate(r, q.now, q.userId, q.profile.value.userId, q.startAt))
      == if CreateAllowed(w, q) then Goto(s, r, CreateCheckingClient(TicketFor(w, q))) else s
  {
    SameGate(s, w, q.profile.value.userId, q.now, q.startAt);
  }

  /** In a safe world nothing stands in the way of a create that passed its checks. */
  lemma CreateUnopposed(w: R.World, q: R.Request)
    requires R.Safe(w) && q.CreateRequest? && Accepting(q.profile) && q.id !in w.bookings
    requires CreateAllowed(w, q) && TicketFree(w.bookings, TicketFor(w, q))
    ensures var t := TicketFor(w, q);
      && !KeyTaken(w.bookings, SlotKey(t.hrUserId, t.startAt), None)
      && Free(w.bookings[q.id := t.Booked()], Consultant(t.hrUserId), t.startAt, t.EndAt(), Some(q.id))
  {
    R.ProtectionNeverFires(w, q.userId, q.profile, q.startAt, q.now, q.id);
  }

  /** What the protocol does for a create request: nothing before a profile that takes bookings
      is found. */
  function CreateRun(r: nat, q: R.Request): seq<Event>
    requires q.CreateRequest?
  {
    if Accepting(q.profile) then CreateEvents(r, q.now, q.userId, q.profile.value.userId, q.startAt, q.id) else []
  }

  lemma CreateSplit(s: State, r: nat, q: R.Request)
    requires q.CreateRequest?
    ensures Run(s, CreateRun(r, q))
      == if Accepting(q.profile)
         then CreateRest(Step(s, BeginCreate(r, q.now, q.userId, q.profile.value.userId, q.startAt)), r, q.id)
         else s
  {
    if Accepting(q.profile) {
      RunFive(s, BeginCreate(r, q.now, q.userId, q.profile.value.userId, q.startAt),
        ClientCheck(r), ConsultantCheck(r), Insert(r, q.id), Sweep(r, None));
    }
  }

  lemma CreateGoesOn(s: State, r: nat, t: Ticket, id: nat)
    requires r !in s.requests && id !in s.inserted && s.db.Keys <= s.inserted.Keys
    requires TicketFree(s.db, t) ==>
      && !KeyTaken(s.db, SlotKey(t.hrUserId, t.startAt), None)
      && Free(s.db[id := t.Booked()], Consultant(t.hrUserId), t.startAt, t.EndAt(), Some(id))
    ensures Leaves(s, CreateRest(Goto(s, r, CreateCheckingClient(t)), r, id), r,
      if TicketFree(s.db, t) then s.db[id := t.Booked()] else s.db)
  {
    var s1 := Goto(s, r, CreateCheckingClient(t));
    CreateFromChecks(s1, r, t, id);
    assert s1.requests - {r} == s.requests - {r};
  }

  /** A create request served alone is the protocol's create run without interruption. */
  lemma CreateIsProtocolRun(s: State, w: R.World, r: nat, q: R.Request)
    requires Mirrors(s, w) && R.Safe(w) && r !in s.requests
    requires q.CreateRequest? && q.id !in s.inserted && s.db.Keys <= s.inserted.Keys
    ensures Leaves(s, Run(s, CreateRun(r, q)), r, R.Serve(w, q).bookings)
  {
    CreateSplit(s, r, q);
    if Accepting(q.profile) {
      CreateStores(w, q);
      CreateBegins(s, w, r, q);
      if CreateAllowed(w, q) {
        if TicketFree(s.db, TicketFor(w, q)) {
          CreateUnopposed(w, q);
        }
        CreateGoesOn(s, r, TicketFor(w, q), q.id);
      } else {
        Idle(s, r, q.id, None, 0);
      }
    }
  }

  // ----- Cancel -------------------------------------------------------------------------------

  function CancelRun(w: R.World, r: nat, q: R.Request): seq<Event>
    requires q.CancelRequest?
  {
    if A.MayTouch(w, q.actor, q.id)
    then [BeginCancel(r, q.now, q.id, w.bookings[q.id].userId == q.actor.id)] + [SaveCancel(r)]
    else []
  }

  lemma SaveWrites(s: State, r: nat, id: nat)
    requires r in s.requests && s.requests[r] == Cancelling(id) && id in s.db
    requires s.db.Keys <= s.inserted.Keys
    ensures Leaves(s, Step(s, SaveCancel(r)), r, s.db[id := CancelFields(s.db[id])])
  {
  }

  /** The guards of a cancellation. */
  predicate CancelAllowed(b: Booking, actor: R.Actor, now: int) {
    && Active(b) && now < b.startAt
    && (b.userId == actor.id ==> CANCEL_NOTICE_MINUTES * MINUTE <= b.startAt - now)
  }

  lemma CancelStores(w: R.World, q: R.Request)
    requires AllWellFormed(w.schedules) && q.CancelRequest? && A.MayTouch(w, q.actor, q.id)
    ensures R.Serve(w, q).bookings
      == if CancelAllowed(w.bookings[q.id], q.actor, q.now)
         then w.bookings[q.id := CancelFields(w.bookings[q.id])] else w.bookings
  {
  }

  lemma CancelBegins(s: State, r: nat, actor: R.Actor, id: nat, now: int)
    requires r !in s.requests && id in s.db
    ensures Step(s, BeginCancel(r, now, id, s.db[id].userId == actor.id))
      == if CancelAllowed(s.db[id], actor, now) then Goto(s, r, Cancelling(id)) else s
  {
  }

  /** A cancellation served alone is the protocol's read and save, or nothing for a stranger. */
  lemma CancelIsProtocolRun(s: State, w: R.World, r: nat, q: R.Request)
    requires Mirrors(s, w) && r !in s.requests && q.CancelRequest? && s.db.Keys <= s.inserted.Keys
    ensures Leaves(s, Run(s, CancelRun(w, r, q)), r, R.Serve(w, q).bookings)
  {
    if A.MayTouch(w, q.actor, q.id) {
      var e := BeginCancel(r, q.now, q.id, w.bookings[q.id].userId == q.actor.id);
      RunOne(s, e);
      RunThen(s, [e], SaveCancel(r));
      CancelBegins(s, r, q.actor, q.id, q.now);
      CancelStores(w, q);
      if CancelAllowed(s.db[q.id], q.actor, q.now) {
        var s1 := Goto(s, r, Cancelling(q.id));
        SaveWrites(s1, r, q.id);
        assert s1.requests - {r} == s.requests - {r};
      } else {
        Idle(s, r, q.id, None, 0);
      }
    }
  }

  // ----- Reschedule ---------------------------------------------------------------------------

  function RescheduleEvents(r: nat, now: int, id: nat, startAt: int): seq<Event> {
    [BeginMove(r, now, id, startAt)] + [MoveGateCheck(r, now)] + [ClientCheck(r)] + [ConsultantCheck(r)]
    + [Move(r)]
  }

  function RescheduleRun(w: R.World, r: nat, q: R.Request): seq<Event>
    requires q.RescheduleRequest?
  {
    if A.MayTouch(w, q.actor, q.id) then RescheduleEvents(r, q.now, q.id, q.startAt) else []
  }

  predicate MoveFree(db: Store, id: nat, was: Booking, startAt: int, d: int) {
    && Free(db, Client(was.userId), startAt, AddMinutes(startAt, d), Some(id))
    && Free(db, Consultant(was.hrUserId), startAt, AddMinutes(startAt, d), Some(id))
  }

  lemma MoveChecks(s: State, r: nat, id: nat, was: Booking, startAt: int, d: int)
    requires r in s.requests && s.requests[r] == MoveCheckingClient(id, was, startAt, d)
    ensures var s' := Step(Step(s, ClientCheck(r)), ConsultantCheck(r));
      s' == if MoveFree(s.db, id, was, startAt, d) then Goto(s, r, Moving(id, was, startAt, d)) else Finish(s, r)
  {
    var s1 := Step(s, ClientCheck(r));
    if r in s1.requests {
      assert s1 == Goto(s, r, MoveCheckingConsultant(id, was, startAt, d));
      assert s1.requests - {r} == s.requests - {r};
      assert s1.requests[r := Moving(id, was, startAt, d)] == s.requests[r := Moving(id, was, startAt, d)];
    } else {
      Idle(s1, r, 0, None, 0);
    }
  }

  /** The guards of a reschedule up to and including the gate. */
  ghost predicate MoveAllowed(w: R.World, id: nat, startAt: int, now: int)
    requires AllWellFormed(w.schedules)
  {
    && id in w.bookings && Active(w.bookings[id]) && now < w.bookings[id].startAt
    && w.bookings[id].rescheduleCount < RESCHEDULE_MAX && startAt != w.bookings[id].startAt
    && GateOpen(R.ConfigOf(w, w.bookings[id].hrUserId), now, startAt)
  }

  /** The first two steps let a reschedule through exactly when those guards hold. */
  lemma MoveGates(s: State, w: R.World, r: nat, id: nat, now: int, startAt: int)
    requires Mirrors(s, w) && r !in s.requests
    ensures var s' := Step(Step(s, BeginMove(r, now, id, startAt)), MoveGateCheck(r, now));
      s' == if MoveAllowed(w, id, startAt, now)
            then Goto(s, r, MoveCheckingClient(id, s.db[id], startAt,
                   R.ConfigOf(w, s.db[id].hrUserId).slotDurationMinutes))
            else s
  {
    var s1 := Step(s, BeginMove(r, now, id, startAt));
    if r !in s1.requests {
      Idle(s1, r, 0, None, now);
    } else {
      SameGate(s, w, s.db[id].hrUserId, now, startAt);
      assert s1 == Goto(s, r, MoveGate(id, s.db[id], startAt));
      assert ScheduleOf(s1, s.db[id].hrUserId) == ScheduleOf(s, s.db[id].hrUserId);
      assert s1.requests - {r} == s.requests;
      var q := MoveCheckingClient(id, s.db[id], startAt, ScheduleOf(s, s.db[id].hrUserId).durationMinutes);
      assert s1.requests[r := q] == s.requests[r := q];
    }
  }

  /** The conditional update moves an active booking when the index does not refuse its new key. */
  lemma MoveWrites(s: State, r: nat, id: nat, was: Booking, startAt: int, d: int)
    requires r in s.requests && s.requests[r] == Moving(id, was, startAt, d)
    requires id in s.db && s.db[id] == was && Active(was) && s.db.Keys <= s.inserted.Keys
    requires !KeyTaken(s.db, SlotKey(was.hrUserId, startAt), Some(id))
    ensures Leaves(s, Step(s, Move(r)), r, s.db[id := MoveFields(was, was, startAt, d)])
  {
  }

  ghost function MoveRest(s: State, r: nat): State {
    Step(Step(Step(s, ClientCheck(r)), ConsultantCheck(r)), Move(r))
  }

  /** From the checks on: the booking moves exactly when both its parties are free. */
  lemma MoveFromChecks(s: State, r: nat, id: nat, was: Booking, startAt: int, d: int)
    requires r in s.requests && s.requests[r] == MoveCheckingClient(id, was, startAt, d)
    requires id in s.db && s.db[id] == was && Active(was) && s.db.Keys <= s.inserted.Keys
    requires MoveFree(s.db, id, was, startAt, d) ==> !KeyTaken(s.db, SlotKey(was.hrUserId, startAt), Some(id))
    ensures Leaves(s, MoveRest(s, r), r,
        if MoveFree(s.db, id, was, startAt, d) then s.db[id := MoveFields(was, was, startAt, d)] else s.db)
  {
    MoveChecks(s, r, id, was, startAt, d);
    var s2 := Step(Step(s, ClientCheck(r)), ConsultantCheck(r));
    if MoveFree(s.db, id, was, startAt, d) {
      MoveWrites(s2, r, id, was, startAt, d);
      assert s2.requests - {r} == s.requests - {r};
    } else {
      Idle(s2, r, id, None, 0);
    }
  }

  ghost function MoveTo(w: R.World, q: R.Request): Store
    requires AllWellFormed(w.schedules) && q.RescheduleRequest? && q.id in w.bookings
  {
    var b := w.bookings[q.id];
    var d := R.ConfigOf(w, b.hrUserId).slotDurationMinutes;
    if MoveAllowed(w, q.id, q.startAt, q.now) && MoveFree(w.bookings, q.id, b, q.startAt, d)
    then w.bookings[q.id := MoveFields(b, b, q.startAt, d)] else w.bookings
  }

  lemma RescheduleStores(w: R.World, q: R.Request)
    requires AllWellFormed(w.schedules) && q.RescheduleRequest? && A.MayTouch(w, q.actor, q.id)
    ensures R.Serve(w, q).bookings == MoveTo(w, q)
  {
  }

  lemma MoveGoesOn(s: State, w: R.World, r: nat, q: R.Request)
    requires Mirrors(s, w) && R.Safe(w) && r !in s.requests && q.RescheduleRequest? && q.id in w.bookings
    requires s.db.Keys <= s.inserted.Keys && MoveAllowed(w, q.id, q.startAt, q.now)
    ensures var d := R.ConfigOf(w, s.db[q.id].hrUserId).slotDurationMinutes;
      Leaves(s, MoveRest(Goto(s, r, MoveCheckingClient(q.id, s.db[q.id], q.startAt, d)), r), r, MoveTo(w, q))
  {
    var was, d := s.db[q.id], R.ConfigOf(w, s.db[q.id].hrUserId).slotDurationMinutes;
    if MoveFree(s.db, q.id, was, q.startAt, d) {
      R.FreeLeavesKey(w.bookings, q.id, q.startAt, d);
    }
    var s2 := Goto(s, r, MoveCheckingClient(q.id, was, q.startAt, d));
    MoveFromChecks(s2, r, q.id, was, q.startAt, d);
    assert s2.requests - {r} == s.requests - {r};
  }

  /** A reschedule served alone is the protocol's reschedule run without interruption, or nothing
      for a stranger. */
  lemma RescheduleIsProtocolRun(s: State, w: R.World, r: nat, q: R.Request)
    requires Mirrors(s, w) && R.Safe(w) && r !in s.requests
    requires q.RescheduleRequest? && s.db.Keys <= s.inserted.Keys
    ensures Leaves(s, Run(s, RescheduleRun(w, r, q)), r, R.Serve(w, q).bookings)
  {
    if A.MayTouch(w, q.actor, q.id) {
      var e, f := BeginMove(r, q.now, q.id, q.startAt), MoveGateCheck(r, q.now);
      RunFive(s, e, f, ClientCheck(r), ConsultantCheck(r), Move(r));
      MoveGates(s, w, r, q.id, q.now, q.startAt);
      RescheduleStores(w, q);
      if MoveAllowed(w, q.id, q.startAt, q.now) {
        MoveGoesOn(s, w, r, q);
      } else {
        Idle(s, r, q.id, None, q.now);
      }
    }
  }

  // ----- The lifecycle sweep ------------------------------------------------------------------

  function CompleteSome(db: Store, ids: set<nat>, now: int): Store {
    map id | id in db ::
      if id in ids && Active(db[id]) && db[id].endAt <= now then CompleteFields(db[id]) else db[id]
  }

  predicate Completes(es: seq<Event>, now: int) {
    forall i | 0 <= i < |es| :: es[i].Complete? && es[i].now == now
  }

  lemma CompleteOne(s: State, id: nat, now: int)
    ensures Step(s, Complete(id, now)) == s.(db := CompleteSome(s.db, {id}, now))
  {
    assert CompleteStep(s, id, now).db == CompleteSome(s.db, {id}, now);
  }

  lemma CompleteRest(db: Store, id: nat, ids: set<nat>, now: int)
    requires id in ids
    ensures CompleteSome(CompleteSome(db, {id}, now), ids - {id}, now) == CompleteSome(db, ids, now)
  {
  }

  /** Completing documents one at a time completes them all. */
  lemma {:induction false} CompleteRun(s: State, ids: set<nat>, now: int) returns (es: seq<Event>)
    ensures Completes(es, now) && Run(s, es) == s.(db := CompleteSome(s.db, ids, now))
    decreases |ids|
  {
    if ids == {} {
      es := [];
      assert CompleteSome(s.db, ids, now) == s.db;
    } else {
      var id :| id in ids;
      CompleteOne(s, id, now);
      CompleteRest(s.db, id, ids, now);
      var e := Complete(id, now);
      var rest := CompleteRun(Step(s, e), ids - {id}, now);
      es := [e] + rest;
      RunConcat(s, [e], rest);
      RunOne(s, e);
    }
  }

  // ----- Histories ------------------------------------------------------------------------------

  /** The events that serve a request in a world. */
  ghost predicate IsRunOf(w: R.World, q: R.Request, es: seq<Event>) {
    match q
    case CreateRequest(_, _, _, _, _, _) => es == CreateRun(0, q)
    case CancelRequest(_, _, _, _) => es == CancelRun(w, 0, q)
    case RescheduleRequest(_, _, _, _, _, _) => es == RescheduleRun(w, 0, q)
    case LifecycleSweep(now) => Completes(es, now)
    case ScheduleUpdate(hr, c) => WellFormed(c) && es == [SetSchedule(hr, ScheduleFor(c))]
    case ReminderFires(_, _) => es == []
  }

  /** Between requests: nothing in flight, and nothing inserted that is not there. */
  ghost predicate AtRest(s: State, w: R.World) {
    Mirrors(s, w) && s.requests == map[] && s.inserted.Keys == s.db.Keys
  }

  lemma ScheduleUpdateRun(s: State, w: R.World, hr: nat, c: SlotConfig)
    requires AtRest(s, w) && WellFormed(c)
    ensures AtRest(Run(s, [SetSchedule(hr, ScheduleFor(c))]), w.(schedules := w.schedules[hr := c]))
  {
    RunOne(s, SetSchedule(hr, ScheduleFor(c)));
    assert SchedulesFor(w.schedules[hr := c]) == SchedulesFor(w.schedules)[hr := ScheduleFor(c)];
  }

  lemma SweepRun(s: State, w: R.World, now: int) returns (es: seq<Event>)
    requires AtRest(s, w)
    ensures Completes(es, now) && AtRest(Run(s, es), w.(bookings := R.CompleteEnded(w.bookings, now)))
  {
    es := CompleteRun(s, s.db.Keys, now);
    assert CompleteSome(s.db, s.db.Keys, now) == R.CompleteEnded(w.bookings, now);
  }

  lemma ServedAtRest(s: State, s': State, w: R.World, w': R.World)
    requires AtRest(s, w) && Leaves(s, s', 0, w'.bookings)
    requires w'.schedules == w.schedules && w.bookings.Keys <= w'.bookings.Keys
    ensures AtRest(s', w')
  {
  }

  lemma ServeIsProtocolRun(s: State, w: R.World, q: R.Request) returns (es: seq<Event>)
    requires AtRest(s, w) && R.Safe(w) && R.Admissible(w, q)
    ensures IsRunOf(w, q, es) && AtRest(Run(s, es), R.Serve(w, q))
  {
    match q
    case CreateRequest(_, _, _, _, _, _) =>
      es := CreateRun(0, q);
      CreateIsProtocolRun(s, w, 0, q);
      ServedAtRest(s, Run(s, es), w, R.Serve(w, q));
    case CancelRequest(_, _, _, _) =>
      es := CancelRun(w, 0, q);
      CancelIsProtocolRun(s, w, 0, q);
      ServedAtRest(s, Run(s, es), w, R.Serve(w, q));
    case RescheduleRequest(_, _, _, _, _, _) =>
      es := RescheduleRun(w, 0, q);
      RescheduleIsProtocolRun(s, w, 0, q);
      ServedAtRest(s, Run(s, es), w, R.Serve(w, q));
    case LifecycleSweep(now) => es := SweepRun(s, w, now);
    case ScheduleUpdate(hr, c) =>
      es := [SetSchedule(hr, ScheduleFor(c))];
      ScheduleUpdateRun(s, w, hr, c);
    case ReminderFires(_, _) => es := [];
  }

  function Flatten(parts: seq<seq<Event>>): seq<Event> {
    if parts == [] then [] else Flatten(parts[..|parts| - 1]) + parts[|parts| - 1]
  }

  /** Every world of a history is reached by one run of the protocol, request after request. */
  lemma {:induction false} HistoryIsProtocolRun(worlds: seq<R.World>, requests: seq<R.Request>, i: nat)
    returns (parts: seq<seq<Event>>)
    requires R.IsHistory(worlds, requests) && i < |worlds| && worlds[0].bookings == map[]
    ensures |parts| == i && forall k | 0 <= k < i :: IsRunOf(worlds[k], requests[k], parts[k])
    ensures AtRest(Run(Start(SchedulesFor(worlds[0].schedules)), Flatten(parts)), worlds[i])
  {
    if i == 0 {
      parts := [];
    } else {
      var s0 := Start(SchedulesFor(worlds[0].schedules));
      var before := HistoryIsProtocolRun(worlds, requests, i - 1);
      R.HistorySafe(worlds, requests, i - 1);
      var es := ServeIsProtocolRun(Run(s0, Flatten(before)), worlds[i - 1], requests[i - 1]);
      parts := before + [es];
      assert parts[..i - 1] == before;
      RunConcat(s0, Flatten(before), es);
    }
  }
}
