/** Bookings under concurrency: every request as a sequence of atomic database steps that
    interleave freely (src/services/booking.service.ts, src/jobs/lifecycle.job.ts). */
module BookingProtocol {
  import opened Wrappers
  import opened Datetime
  import opened Bookings

  /** What the gate needs of a schedule: the grid of starts it offers, and its window. */
  datatype Schedule = Schedule(
    durationMinutes: int,
    minNoticeMinutes: int,
    maxAdvanceDays: int,
    starts: iset<int>)

  ghost predicate Accepts(sched: Schedule, now: int, s: int) {
    && s in sched.starts
    && AddMinutes(now, sched.minNoticeMinutes) <= s < AddDays(now, sched.maxAdvanceDays)
  }

  /** A create request's booking-to-be. */
  datatype Ticket = Ticket(userId: nat, hrUserId: nat, startAt: int, durationMinutes: int) {
    function EndAt(): int { AddMinutes(startAt, durationMinutes) }

    function Booked(): Booking { NewBooking(userId, hrUserId, startAt, durationMinutes) }
  }

  /** Where a request in flight stands, and what it has read. */
  datatype Request =
    | CreateCheckingClient(t: Ticket)
    | CreateCheckingConsultant(t: Ticket)
    | Inserting(t: Ticket)
    | Sweeping(t: Ticket, id: nat)
    | StandingDown(t: Ticket, id: nat)
    | MoveGate(id: nat, was: Booking, startAt: int)
    | MoveCheckingClient(id: nat, was: Booking, startAt: int, durationMinutes: int)
    | MoveCheckingConsultant(id: nat, was: Booking, startAt: int, durationMinutes: int)
    | Moving(id: nat, was: Booking, startAt: int, durationMinutes: int)
    | Cancelling(id: nat)

  /** `inserted` and `settled` record history: every booking ever inserted, as inserted, and
      the creates that have returned. */
  datatype State = State(
    db: Store,
    schedules: map<nat, Schedule>,
    requests: map<nat, Request>,
    inserted: Store,
    settled: set<nat>)

  datatype Event =
    | BeginCreate(r: nat, now: int, userId: nat, hrUserId: nat, startAt: int)
    | ClientCheck(r: nat)
    | ConsultantCheck(r: nat)
    | Insert(r: nat, id: nat)
    | Sweep(r: nat, found: Option<nat>)
    | StandDown(r: nat)
    | BeginMove(r: nat, now: int, id: nat, startAt: int)
    | MoveGateCheck(r: nat, now: int)
    | Move(r: nat)
    | BeginCancel(r: nat, now: int, id: nat, byClient: bool)
    | SaveCancel(r: nat)
    | Complete(id: nat, now: int)
    | SetSchedule(hrUserId: nat, schedule: Schedule)

  ghost function ScheduleOf(s: State, hr: nat): Schedule {
    if hr in s.schedules then s.schedules[hr] else Schedule(30, 120, 60, iset{})
  }

  function Goto(s: State, r: nat, q: Request): State {
    s.(requests := s.requests[r := q])
  }

  function Finish(s: State, r: nat): State {
    s.(requests := s.requests - {r})
  }

  // ----- Create ---------------------------------------------------------------------

  ghost function BeginCreateStep(s: State, r: nat, now: int, userId: nat, hr: nat, startAt: int): State {
    if r !in s.requests && userId != hr && Accepts(ScheduleOf(s, hr), now, startAt)
    then Goto(s, r, CreateCheckingClient(Ticket(userId, hr, startAt, ScheduleOf(s, hr).durationMinutes)))
    else s
  }

  function InsertStep(s: State, r: nat, id: nat): State {
    if r in s.requests && s.requests[r].Inserting? && id !in s.inserted then
      var t := s.requests[r].t;
      if KeyTaken(s.db, SlotKey(t.hrUserId, t.startAt), None) then Finish(s, r)
      else
        Goto(s, r, Sweeping(t, id)).(db := s.db[id := t.Booked()], inserted := s.inserted[id := t.Booked()])
    else s
  }

  /** A possible answer of the sweep's query: nothing, or any one of the matches. */
  predicate PossibleAnswer(s: State, t: Ticket, id: nat, found: Option<nat>) {
    match found
    case None => Free(s.db, Consultant(t.hrUserId), t.startAt, t.EndAt(), Some(id))
    case Some(other) =>
      Conflicts(s.db, Consultant(t.hrUserId), t.startAt, t.EndAt(), Some(id), other)
  }

  function SweepStep(s: State, r: nat, found: Option<nat>): State {
    if r in s.requests && s.requests[r].Sweeping? then
      var t, id := s.requests[r].t, s.requests[r].id;
      if !PossibleAnswer(s, t, id, found) then s
      else if found.Some? && found.value < id then Goto(s, r, StandingDown(t, id))
      else Finish(s, r).(settled := s.settled + {id})
    else s
  }

  function StandDownStep(s: State, r: nat): State {
    if r in s.requests && s.requests[r].StandingDown?
    then Finish(s, r).(db := s.db - {s.requests[r].id})
    else s
  }

  // ----- Checks shared by create and reschedule ------------------------------------------

  function ClientCheckStep(s: State, r: nat): State {
    if r !in s.requests then s
    else
      match s.requests[r]
      case CreateCheckingClient(t) =>
        if Free(s.db, Client(t.userId), t.startAt, t.EndAt(), None)
        then Goto(s, r, CreateCheckingConsultant(t)) else Finish(s, r)
      case MoveCheckingClient(id, was, startAt, d) =>
        if Free(s.db, Client(was.userId), startAt, AddMinutes(startAt, d), Some(id))
        then Goto(s, r, MoveCheckingConsultant(id, was, startAt, d)) else Finish(s, r)
      case _ => s
  }

  function ConsultantCheckStep(s: State, r: nat): State {
    if r !in s.requests then s
    else
      match s.requests[r]
      case CreateCheckingConsultant(t) =>
        if Free(s.db, Consultant(t.hrUserId), t.startAt, t.EndAt(), None)
        then Goto(s, r, Inserting(t)) else Finish(s, r)
      case MoveCheckingConsultant(id, was, startAt, d) =>
        if Free(s.db, Consultant(was.hrUserId), startAt, AddMinutes(startAt, d), Some(id))
        then Goto(s, r, Moving(id, was, startAt, d)) else Finish(s, r)
      case _ => s
  }

  // ----- Reschedule -----------------------------------------------------------------

  function BeginMoveStep(s: State, r: nat, now: int, id: nat, startAt: int): State {
    if && r !in s.requests && id in s.db && Active(s.db[id])
       && now < s.db[id].startAt
       && s.db[id].rescheduleCount < RESCHEDULE_MAX
       && startAt != s.db[id].startAt
    then Goto(s, r, MoveGate(id, s.db[id], startAt))
    else s
  }

  ghost function MoveGateStep(s: State, r: nat, now: int): State {
    if r in s.requests && s.requests[r].MoveGate? then
      var MoveGate(id, was, startAt) := s.requests[r];
      var sched := ScheduleOf(s, was.hrUserId);
      if Accepts(sched, now, startAt)
      then Goto(s, r, MoveCheckingClient(id, was, startAt, sched.durationMinutes))
      else Finish(s, r)
    else s
  }

  /** One conditional update: only an active document moves, and the index still has its say. */
  function MoveStep(s: State, r: nat): State {
    if r in s.requests && s.requests[r].Moving? then
      var Moving(id, was, startAt, d) := s.requests[r];
      if id !in s.db || !Active(s.db[id]) then Finish(s, r)
      else if KeyTaken(s.db, SlotKey(was.hrUserId, startAt), Some(id)) then Finish(s, r)
      else Finish(s, r).(db := s.db[id := MoveFields(s.db[id], was, startAt, d)])
    else s
  }

  // ----- Cancel, completion, schedule change ----------------------------------------------

  function BeginCancelStep(s: State, r: nat, now: int, id: nat, byClient: bool): State {
    if && r !in s.requests && id in s.db && Active(s.db[id])
       && now < s.db[id].startAt
       && (byClient ==> CANCEL_NOTICE_MINUTES * MINUTE <= s.db[id].startAt - now)
    then Goto(s, r, Cancelling(id))
    else s
  }

  /** The save writes the changed fields over whatever the document has become meanwhile. */
  function SaveCancelStep(s: State, r: nat): State {
    if r in s.requests && s.requests[r].Cancelling? then
      var id := s.requests[r].id;
      if id in s.db then Finish(s, r).(db := s.db[id := CancelFields(s.db[id])]) else Finish(s, r)
    else s
  }

  function CompleteStep(s: State, id: nat, now: int): State {
    if id in s.db && Active(s.db[id]) && s.db[id].endAt <= now
    then s.(db := s.db[id := CompleteFields(s.db[id])])
    else s
  }

  /** An event that is not enabled changes nothing. */
  ghost function Step(s: State, e: Event): State {
    match e
    case BeginCreate(r, now, userId, hr, startAt) => BeginCreateStep(s, r, now, userId, hr, startAt)
    case ClientCheck(r) => ClientCheckStep(s, r)
    case ConsultantCheck(r) => ConsultantCheckStep(s, r)
    case Insert(r, id) => InsertStep(s, r, id)
    case Sweep(r, found) => SweepStep(s, r, found)
    case StandDown(r) => StandDownStep(s, r)
    case BeginMove(r, now, id, startAt) => BeginMoveStep(s, r, now, id, startAt)
    case MoveGateCheck(r, now) => MoveGateStep(s, r, now)
    case Move(r) => MoveStep(s, r)
    case BeginCancel(r, now, id, byClient) => BeginCancelStep(s, r, now, id, byClient)
    case SaveCancel(r) => SaveCancelStep(s, r)
    case Complete(id, now) => CompleteStep(s, id, now)
    case SetSchedule(hr, schedule) => s.(schedules := s.schedules[hr := schedule])
  }

  /** Any interleaving is a sequence of events. */
  ghost function Run(s: State, es: seq<Event>): State
    decreases |es|
  {
    if es == [] then s else Run(Step(s, es[0]), es[1..])
  }

  lemma {:induction false} RunConcat(s: State, es: seq<Event>, fs: seq<Event>)
    ensures Run(s, es + fs) == Run(Run(s, es), fs)
    decreases |es|
  {
    if es == [] {
      assert es + fs == fs;
    } else {
      assert (es + fs)[1..] == es[1..] + fs;
      RunConcat(Step(s, es[0]), es[1..], fs);
    }
  }

  lemma RunOne(s: State, e: Event)
    ensures Run(s, [e]) == Step(s, e)
  {
    assert Run(s, [e]) == Run(Step(s, e), []);
  }

  lemma RunThen(s: State, es: seq<Event>, e: Event)
    ensures Run(s, es + [e]) == Step(Run(s, es), e)
  {
    RunConcat(s, es, [e]);
    RunOne(Run(s, es), e);
  }

  lemma RunUpTo(s0: State, es: seq<Event>, k: nat)
    requires k < |es|
    ensures Run(s0, es[..k + 1]) == Step(Run(s0, es[..k]), es[k])
  {
    assert es[..k + 1] == es[..k] + [es[k]];
    RunThen(s0, es[..k], es[k]);
  }

  function Start(schedules: map<nat, Schedule>): State {
    State(map[], schedules, map[], map[], {})
  }

  // ----- What every step keeps ----------------------------------------------------------

  predicate EndMatches(b: Booking) {
    b.endAt == AddMinutes(b.startAt, b.durationMinutes)
  }

  predicate SameParties(a: Booking, b: Booking) {
    a.userId == b.userId && a.hrUserId == b.hrUserId
  }

  predicate RequestSound(s: State, q: Request) {
    match q
    case Sweeping(t, id) => id in s.inserted && s.inserted[id] == t.Booked()
    case StandingDown(t, id) => id in s.inserted && s.inserted[id] == t.Booked()
    case MoveGate(id, was, _) => id in s.inserted && SameParties(was, s.inserted[id])
    case MoveCheckingClient(id, was, _, _) => id in s.inserted && SameParties(was, s.inserted[id])
    case MoveCheckingConsultant(id, was, _, _) => id in s.inserted && SameParties(was, s.inserted[id])
    case Moving(id, was, _, _) => id in s.inserted && SameParties(was, s.inserted[id])
    case _ => true
  }

  predicate Sound(s: State) {
    && KeysConsistent(s.db) && KeysUnique(s.db)
    && (forall id | id in s.db ::
          id in s.inserted && SameParties(s.db[id], s.inserted[id]) && EndMatches(s.db[id]))
    && (forall r | r in s.requests :: RequestSound(s, s.requests[r]))
  }

  lemma InsertSound(s: State, r: nat, id: nat)
    requires Sound(s)
    ensures Sound(InsertStep(s, r, id))
  {
  }

  lemma MoveSound(s: State, r: nat)
    requires Sound(s)
    ensures Sound(MoveStep(s, r))
  {
  }

  lemma SaveCancelSound(s: State, r: nat)
    requires Sound(s)
    ensures Sound(SaveCancelStep(s, r))
  {
  }

  lemma CompleteSound(s: State, id: nat, now: int)
    requires Sound(s)
    ensures Sound(CompleteStep(s, id, now))
  {
  }

  lemma StandDownSound(s: State, r: nat)
    requires Sound(s)
    ensures Sound(StandDownStep(s, r))
  {
  }

  lemma SweepSound(s: State, r: nat, found: Option<nat>)
    requires Sound(s)
    ensures Sound(SweepStep(s, r, found))
  {
  }

  lemma GotoSound(s: State, r: nat, q: Request)
    requires Sound(s) && RequestSound(s, q)
    ensures Sound(Goto(s, r, q)) && Sound(Finish(s, r))
  {
  }

  lemma ClientCheckSound(s: State, r: nat)
    requires Sound(s)
    ensures Sound(ClientCheckStep(s, r))
  {
    if r in s.requests {
      assert RequestSound(s, s.requests[r]);
      match s.requests[r]
      case CreateCheckingClient(t) => GotoSound(s, r, CreateCheckingConsultant(t));
      case MoveCheckingClient(id, was, startAt, d) =>
        GotoSound(s, r, MoveCheckingConsultant(id, was, startAt, d));
      case _ =>
    }
  }

  lemma ConsultantCheckSound(s: State, r: nat)
    requires Sound(s)
    ensures Sound(ConsultantCheckStep(s, r))
  {
    if r in s.requests {
      assert RequestSound(s, s.requests[r]);
      match s.requests[r]
      case CreateCheckingConsultant(t) => GotoSound(s, r, Inserting(t));
      case MoveCheckingConsultant(id, was, startAt, d) => GotoSound(s, r, Moving(id, was, startAt, d));
      case _ =>
    }
  }

  lemma BeginSound(s: State, r: nat, now: int, id: nat, startAt: int, userId: nat, hr: nat, byClient: bool)
    requires Sound(s)
    ensures Sound(BeginCreateStep(s, r, now, userId, hr, startAt))
    ensures Sound(BeginMoveStep(s, r, now, id, startAt))
    ensures Sound(BeginCancelStep(s, r, now, id, byClient))
  {
    GotoSound(s, r, CreateCheckingClient(Ticket(userId, hr, startAt, ScheduleOf(s, hr).durationMinutes)));
    GotoSound(s, r, Cancelling(id));
    if id in s.db {
      GotoSound(s, r, MoveGate(id, s.db[id], startAt));
    }
  }

  lemma MoveGateSound(s: State, r: nat, now: int)
    requires Sound(s)
    ensures Sound(MoveGateStep(s, r, now))
  {
    if r in s.requests && s.requests[r].MoveGate? {
      var MoveGate(id, was, startAt) := s.requests[r];
      assert RequestSound(s, s.requests[r]);
      GotoSound(s, r, MoveCheckingClient(id, was, startAt, ScheduleOf(s, was.hrUserId).durationMinutes));
    }
  }

  lemma StepSound(s: State, e: Event)
    requires Sound(s)
    ensures Sound(Step(s, e))
  {
    match e
    case Insert(r, id) => InsertSound(s, r, id);
    case Move(r) => MoveSound(s, r);
    case SaveCancel(r) => SaveCancelSound(s, r);
    case Complete(id, now) => CompleteSound(s, id, now);
    case StandDown(r) => StandDownSound(s, r);
    case Sweep(r, found) => SweepSound(s, r, found);
    case ClientCheck(r) => ClientCheckSound(s, r);
    case ConsultantCheck(r) => ConsultantCheckSound(s, r);
    case BeginCreate(r, now, userId, hr, startAt) => BeginSound(s, r, now, 0, startAt, userId, hr, false);
    case BeginMove(r, now, id, startAt) => BeginSound(s, r, now, id, startAt, 0, 0, false);
    case BeginCancel(r, now, id, byClient) => BeginSound(s, r, now, id, 0, 0, 0, byClient);
    case MoveGateCheck(r, now) => MoveGateSound(s, r, now);
    case SetSchedule(_, _) =>
  }

  lemma {:induction false} RunSound(s: State, es: seq<Event>)
    requires Sound(s)
    ensures Sound(Run(s, es))
    decreases |es|
  {
    if es != [] {
      StepSound(s, es[0]);
      RunSound(Step(s, es[0]), es[1..]);
    }
  }

  // ----- Nobody books themselves ------------------------------------------------------------

  predicate TicketApart(q: Request) {
    match q
    case CreateCheckingClient(t) => t.userId != t.hrUserId
    case CreateCheckingConsultant(t) => t.userId != t.hrUserId
    case Inserting(t) => t.userId != t.hrUserId
    case _ => true
  }

  predicate PartiesApart(s: State) {
    && (forall id | id in s.db :: s.db[id].userId != s.db[id].hrUserId)
    && (forall r | r in s.requests :: TicketApart(s.requests[r]))
  }

  lemma WritesApart(s: State, r: nat, id: nat, now: int)
    requires PartiesApart(s)
    ensures PartiesApart(InsertStep(s, r, id)) && PartiesApart(MoveStep(s, r))
    ensures PartiesApart(StandDownStep(s, r))
    ensures PartiesApart(SaveCancelStep(s, r)) && PartiesApart(CompleteStep(s, id, now))
  {
    assert r in s.requests ==> TicketApart(s.requests[r]);
  }

  lemma ChecksApart(s: State, r: nat)
    requires PartiesApart(s)
    ensures PartiesApart(ClientCheckStep(s, r)) && PartiesApart(ConsultantCheckStep(s, r))
  {
    assert r in s.requests ==> TicketApart(s.requests[r]);
  }

  lemma BeginsApart(s: State, r: nat, now: int, id: nat, startAt: int, userId: nat, hr: nat, byClient: bool)
    requires PartiesApart(s)
    ensures PartiesApart(BeginCreateStep(s, r, now, userId, hr, startAt))
    ensures PartiesApart(BeginMoveStep(s, r, now, id, startAt)) && PartiesApart(MoveGateStep(s, r, now))
    ensures PartiesApart(BeginCancelStep(s, r, now, id, byClient))
  {
  }

  lemma StepPartiesApart(s: State, e: Event)
    requires PartiesApart(s)
    ensures PartiesApart(Step(s, e))
  {
    match e
    case ClientCheck(r) => ChecksApart(s, r);
    case ConsultantCheck(r) => ChecksApart(s, r);
    case Insert(r, id) => WritesApart(s, r, id, 0);
    case Move(r) => WritesApart(s, r, 0, 0);
    case StandDown(r) => WritesApart(s, r, 0, 0);
    case SaveCancel(r) => WritesApart(s, r, 0, 0);
    case Complete(id, now) => WritesApart(s, 0, id, now);
    case BeginCreate(r, now, userId, hr, startAt) => BeginsApart(s, r, now, 0, startAt, userId, hr, false);
    case BeginMove(r, now, id, startAt) => BeginsApart(s, r, now, id, startAt, 0, 0, false);
    case MoveGateCheck(r, now) => BeginsApart(s, r, now, 0, 0, 0, 0, false);
    case BeginCancel(r, now, id, byClient) => BeginsApart(s, r, now, id, 0, 0, 0, byClient);
    case Sweep(_, _) =>
    case SetSchedule(_, _) =>
  }

  lemma {:induction false} RunPartiesApart(s: State, es: seq<Event>)
    requires PartiesApart(s)
    ensures PartiesApart(Run(s, es))
    decreases |es|
  {
    if es != [] {
      StepPartiesApart(s, es[0]);
      RunPartiesApart(Step(s, es[0]), es[1..]);
    }
  }

  /** In every interleaving, client and consultant of a booking are two people. */
  lemma NobodyBooksThemselves(schedules: map<nat, Schedule>, es: seq<Event>, id: nat)
    requires id in Run(Start(schedules), es).db
    ensures Run(Start(schedules), es).db[id].userId != Run(Start(schedules), es).db[id].hrUserId
  {
    RunPartiesApart(Start(schedules), es);
  }

  predicate ActiveIn(s: State, id: nat) {
    id in s.db && Active(s.db[id])
  }

  /** Once inactive or gone, a booking never becomes active again. */
  lemma {:induction false} NeverReactivated(s: State, es: seq<Event>, id: nat)
    requires id in s.inserted && !ActiveIn(s, id)
    ensures id in Run(s, es).inserted && !ActiveIn(Run(s, es), id)
    decreases |es|
  {
    if es != [] {
      NeverReactivated(Step(s, es[0]), es[1..], id);
    }
  }

  /** In every interleaving a booking holds a slot key exactly while it is active, and the key
      names its stored consultant and start. */
  lemma SlotKeyInEveryRun(schedules: map<nat, Schedule>, es: seq<Event>, id: nat)
    requires id in Run(Start(schedules), es).db
    ensures var b := Run(Start(schedules), es).db[id];
      b.slotKey == if Active(b) then Some(SlotKey(b.hrUserId, b.startAt)) else None
  {
    RunSound(Start(schedules), es);
  }

  /** In every interleaving, two active bookings of a consultant never share a start. */
  lemma NoSharedStartInAnyRun(schedules: map<nat, Schedule>, es: seq<Event>, i: nat, j: nat)
    requires ActiveIn(Run(Start(schedules), es), i) && ActiveIn(Run(Start(schedules), es), j)
    requires i != j
    ensures var db := Run(Start(schedules), es).db;
      db[i].hrUserId != db[j].hrUserId || db[i].startAt != db[j].startAt
  {
    RunSound(Start(schedules), es);
  }
}
