/** Concrete interleavings that double-book: the spacing of starts is needed while schedules stay
    as they are, and each of the three rules where they change. */
module Races {
  import opened Wrappers
  import opened Datetime
  import opened Bookings
  import opened BookingProtocol
  import opened DoubleBooking

  /** A create that runs its checks and gets as far as its insert. */
  function Checks(r: nat, now: int, userId: nat, hr: nat, startAt: int): seq<Event> {
    [BeginCreate(r, now, userId, hr, startAt)] + [ClientCheck(r)] + [ConsultantCheck(r)]
  }

  lemma ChecksPass(s: State, r: nat, now: int, userId: nat, hr: nat, startAt: int)
    requires s.db == map[] && r !in s.requests && userId != hr
    requires Accepts(ScheduleOf(s, hr), now, startAt)
    ensures Run(s, Checks(r, now, userId, hr, startAt))
      == Goto(s, r, Inserting(Ticket(userId, hr, startAt, ScheduleOf(s, hr).durationMinutes)))
  {
    var e := BeginCreate(r, now, userId, hr, startAt);
    var s1 := Step(s, e);
    var s2 := Step(s1, ClientCheck(r));
    RunConcat(s, [e] + [ClientCheck(r)], [ConsultantCheck(r)]);
    RunConcat(s, [e], [ClientCheck(r)]);
    RunOne(s, e);
    RunOne(s1, ClientCheck(r));
    RunOne(s2, ConsultantCheck(r));
    assert Step(s2, ConsultantCheck(r)).requests
      == s.requests[r := Inserting(Ticket(userId, hr, startAt, ScheduleOf(s, hr).durationMinutes))];
  }

  // ----- The spacing of starts is what the fixed-schedule theorem needs ---------------------

  function RaceEvents(hr: nat, now: int, later: int, a: int, b: int): seq<Event> {
    Checks(0, now, hr + 1, hr, a) + Checks(1, later, hr + 2, hr, b) + [Insert(0, 0)] + [Insert(1, 1)]
  }

  lemma BothChecked(hr: nat, sched: Schedule, now: int, later: int, a: int, b: int)
    requires Accepts(sched, now, a) && Accepts(sched, later, b)
    ensures var s := Run(Start(map[hr := sched]), Checks(0, now, hr + 1, hr, a) + Checks(1, later, hr + 2, hr, b));
      && s.db == s.inserted == map[]
      && 0 in s.requests && s.requests[0] == Inserting(Ticket(hr + 1, hr, a, sched.durationMinutes))
      && 1 in s.requests && s.requests[1] == Inserting(Ticket(hr + 2, hr, b, sched.durationMinutes))
  {
    var s0 := Start(map[hr := sched]);
    RunConcat(s0, Checks(0, now, hr + 1, hr, a), Checks(1, later, hr + 2, hr, b));
    ChecksPass(s0, 0, now, hr + 1, hr, a);
    ChecksPass(Run(s0, Checks(0, now, hr + 1, hr, a)), 1, later, hr + 2, hr, b);
  }

  lemma CloseStartsRace(hr: nat, sched: Schedule, now: int, later: int, a: int, b: int)
    requires Accepts(sched, now, a) && Accepts(sched, later, b)
    requires a < b < AddMinutes(a, sched.durationMinutes)
    ensures ScheduleFixed(RaceEvents(hr, now, later, a, b))
    ensures !ConsultantsDisjoint(Run(Start(map[hr := sched]), RaceEvents(hr, now, later, a, b)).db)
  {
    var s0 := Start(map[hr := sched]);
    var d := sched.durationMinutes;
    BothChecked(hr, sched, now, later, a, b);
    var es := Checks(0, now, hr + 1, hr, a) + Checks(1, later, hr + 2, hr, b);
    RunThen(s0, es, Insert(0, 0));
    RunThen(s0, es + [Insert(0, 0)], Insert(1, 1));
    var t0, t1 := Ticket(hr + 1, hr, a, d), Ticket(hr + 2, hr, b, d);
    InsertPasses(Run(s0, es), 0, t0, 0);
    assert Run(s0, es + [Insert(0, 0)]).db == map[0 := t0.Booked()];
    InsertPasses(Run(s0, es + [Insert(0, 0)]), 1, t1, 1);
    var db := Run(s0, RaceEvents(hr, now, later, a, b)).db;
    assert db[0] == t0.Booked() && db[1] == t1.Booked();
    assert !Apart(db[0], db[1]);
  }

  /** The notice asked for reaches the booking horizon. */
  predicate Closed(sched: Schedule) {
    sched.maxAdvanceDays * DAY <= sched.minNoticeMinutes * MINUTE
  }

  lemma {:induction false} ClosedTakesNothing(hr: nat, sched: Schedule, es: seq<Event>)
    requires Closed(sched) && ScheduleFixed(es)
    ensures Run(Start(map[hr := sched]), es) == Start(map[hr := sched])
    decreases |es|
  {
    if es != [] {
      assert Step(Start(map[hr := sched]), es[0]) == Start(map[hr := sched]);
      ClosedTakesNothing(hr, sched, es[1..]);
    }
  }

  /** One consultant is safe from double booking in every interleaving under an unchanging
      schedule exactly when the schedule's starts are a slot apart or it takes no booking at all. */
  lemma NoOverlapIffSpaced(hr: nat, sched: Schedule)
    ensures (forall es | ScheduleFixed(es) ::
        ConsultantsDisjoint(Run(Start(map[hr := sched]), es).db))
      <==> SpacedStarts(sched) || Closed(sched)
  {
    if SpacedStarts(sched) {
      forall es | ScheduleFixed(es) ensures ConsultantsDisjoint(Run(Start(map[hr := sched]), es).db) {
        NoOverlapUnderFixedSchedules(map[hr := sched], es);
      }
    } else if Closed(sched) {
      forall es | ScheduleFixed(es) ensures ConsultantsDisjoint(Run(Start(map[hr := sched]), es).db) {
        ClosedTakesNothing(hr, sched, es);
      }
    } else {
      var a, b :| a in sched.starts && b in sched.starts && a < b < AddMinutes(a, sched.durationMinutes);
      var notice := sched.minNoticeMinutes * MINUTE;
      CloseStartsRace(hr, sched, a - notice, b - notice, a, b);
    }
  }

  // ----- Races when schedules change -------------------------------------------------------

  /** An hour-long slot at one instant only. */
  ghost function OneSlot(startAt: int): Schedule {
    Schedule(60, 0, 1, iset{startAt})
  }

  const HALF := 30 * MINUTE

  /** The schedule is set, and a create passes its checks under it. */
  ghost function SetAndCheck(r: nat, userId: nat, startAt: int): seq<Event> {
    [SetSchedule(9, OneSlot(startAt))] + Checks(r, 0, userId, 9, startAt)
  }

  function Hour(userId: nat, startAt: int): Ticket {
    Ticket(userId, 9, startAt, 60)
  }

  lemma SetAndCheckPass(s: State, r: nat, userId: nat, startAt: int)
    requires s.db == map[] && r !in s.requests && userId != 9 && 0 <= startAt < DAY
    ensures Run(s, SetAndCheck(r, userId, startAt))
      == Goto(s, r, Inserting(Hour(userId, startAt))).(schedules := s.schedules[9 := OneSlot(startAt)])
  {
    var e := SetSchedule(9, OneSlot(startAt));
    RunConcat(s, [e], Checks(r, 0, userId, 9, startAt));
    RunOne(s, e);
    ChecksPass(Step(s, e), r, 0, userId, 9, startAt);
  }

  /** Three creates, at the first, second and third start, all checked before any inserts. */
  ghost function AllChecked(first: int, second: int, third: int): seq<Event> {
    SetAndCheck(0, 1, first) + SetAndCheck(1, 2, second) + SetAndCheck(2, 3, third)
  }

  lemma AllCheckedState(first: int, second: int, third: int)
    requires 0 <= first < DAY && 0 <= second < DAY && 0 <= third < DAY
    ensures Run(Start(map[]), AllChecked(first, second, third))
      == State(map[], map[9 := OneSlot(third)],
               map[0 := Inserting(Hour(1, first)), 1 := Inserting(Hour(2, second)),
                   2 := Inserting(Hour(3, third))],
               map[], {})
  {
    var s0 := Start(map[]);
    RunConcat(s0, SetAndCheck(0, 1, first) + SetAndCheck(1, 2, second), SetAndCheck(2, 3, third));
    RunConcat(s0, SetAndCheck(0, 1, first), SetAndCheck(1, 2, second));
    SetAndCheckPass(s0, 0, 1, first);
    var s1 := Run(s0, SetAndCheck(0, 1, first));
    SetAndCheckPass(s1, 1, 2, second);
    var s2 := Run(s1, SetAndCheck(1, 2, second));
    SetAndCheckPass(s2, 2, 3, third);
  }

  lemma AllCheckedHeeds(rule: Rule, first: int, second: int, third: int)
    ensures AllHeed(rule, AllChecked(first, second, third))
  {
    assert AllHeed(rule, SetAndCheck(0, 1, first));
    assert AllHeed(rule, SetAndCheck(1, 2, second));
    assert AllHeed(rule, SetAndCheck(2, 3, third));
  }

  /** An insert that the index lets through. */
  lemma InsertPasses(s: State, r: nat, t: Ticket, id: nat)
    requires r in s.requests && s.requests[r] == Inserting(t) && id !in s.inserted
    requires !KeyTaken(s.db, SlotKey(t.hrUserId, t.startAt), None)
    ensures Step(s, Insert(r, id))
      == State(s.db[id := t.Booked()], s.schedules, s.requests[r := Sweeping(t, id)],
               s.inserted[id := t.Booked()], s.settled)
  {
  }

  /** A sweep whose answer lets the booking stay. */
  lemma SweepPasses(s: State, r: nat, t: Ticket, id: nat, found: Option<nat>)
    requires r in s.requests && s.requests[r] == Sweeping(t, id)
    requires PossibleAnswer(s, t, id, found) && (found.Some? ==> id <= found.value)
    ensures Step(s, Sweep(r, found))
      == State(s.db, s.schedules, s.requests - {r}, s.inserted, s.settled + {id})
  {
  }

  ghost function OutOfOrder(): seq<Event> {
    AllChecked(0, HALF, 0) + [Insert(1, 7)] + [Sweep(1, None)] + [Insert(0, 5)] + [Sweep(0, Some(7))]
  }

  lemma OutOfOrderInserts()
    ensures var s0, es := Start(map[]), AllChecked(0, HALF, 0);
      var s2 := Run(s0, es + [Insert(1, 7)]);
      && s2.db == map[7 := Hour(2, HALF).Booked()]
      && 1 in s2.requests && s2.requests[1] == Sweeping(Hour(2, HALF), 7)
      && var s4 := Run(s0, es + [Insert(1, 7)] + [Sweep(1, None)] + [Insert(0, 5)]);
      && s4.db == map[5 := Hour(1, 0).Booked(), 7 := Hour(2, HALF).Booked()] && s4.settled == {7}
      && 0 in s4.requests && s4.requests[0] == Sweeping(Hour(1, 0), 5)
  {
    var s0, es := Start(map[]), AllChecked(0, HALF, 0);
    AllCheckedState(0, HALF, 0);
    RunThen(s0, es, Insert(1, 7));
    RunThen(s0, es + [Insert(1, 7)], Sweep(1, None));
    RunThen(s0, es + [Insert(1, 7)] + [Sweep(1, None)], Insert(0, 5));
    var s1 := Run(s0, es);
    InsertPasses(s1, 1, Hour(2, HALF), 7);
    var s2 := Step(s1, Insert(1, 7));
    SweepPasses(s2, 1, Hour(2, HALF), 7, None);
    InsertPasses(Step(s2, Sweep(1, None)), 0, Hour(1, 0), 5);
  }

  /** A sweep whose own id is the smallest has nothing lower to report. */
  lemma NothingLower(s: State, r: nat, found: Option<nat>)
    requires r in s.requests && s.requests[r].Sweeping?
    requires forall j | j in s.db :: s.requests[r].id <= j
    ensures Keeps(LowerReported, s, Sweep(r, found))
  {
  }

  lemma OutOfOrderReportsLower()
    ensures KeepsThroughout(LowerReported, Start(map[]), OutOfOrder())
  {
    var s0, es := Start(map[]), AllChecked(0, HALF, 0);
    OutOfOrderInserts();
    AllCheckedHeeds(LowerReported, 0, HALF, 0);
    HeedThen(LowerReported, es, Insert(1, 7));
    HeedingKeeps(LowerReported, s0, es + [Insert(1, 7)]);
    NothingLower(Run(s0, es + [Insert(1, 7)]), 1, None);
    KeepsThen(LowerReported, s0, es + [Insert(1, 7)], Sweep(1, None));
    KeepsThen(LowerReported, s0, es + [Insert(1, 7)] + [Sweep(1, None)], Insert(0, 5));
    NothingLower(Run(s0, es + [Insert(1, 7)] + [Sweep(1, None)] + [Insert(0, 5)]), 0, Some(7));
    KeepsThen(LowerReported, s0, es + [Insert(1, 7)] + [Sweep(1, None)] + [Insert(0, 5)], Sweep(0, Some(7)));
  }

  lemma OutOfOrderMovesNothing()
    ensures KeepsThroughout(NothingRescheduled, Start(map[]), OutOfOrder())
  {
    var es := AllChecked(0, HALF, 0);
    AllCheckedHeeds(NothingRescheduled, 0, HALF, 0);
    HeedThen(NothingRescheduled, es, Insert(1, 7));
    HeedThen(NothingRescheduled, es + [Insert(1, 7)], Sweep(1, None));
    HeedThen(NothingRescheduled, es + [Insert(1, 7)] + [Sweep(1, None)], Insert(0, 5));
    HeedThen(NothingRescheduled, es + [Insert(1, 7)] + [Sweep(1, None)] + [Insert(0, 5)], Sweep(0, Some(7)));
    HeedingKeeps(NothingRescheduled, Start(map[]), OutOfOrder());
  }

  lemma OutOfOrderOverlaps()
    ensures !SettledDisjoint(Run(Start(map[]), OutOfOrder()))
  {
    var s0 := Start(map[]);
    OutOfOrderInserts();
    var before := AllChecked(0, HALF, 0) + [Insert(1, 7)] + [Sweep(1, None)] + [Insert(0, 5)];
    RunThen(s0, before, Sweep(0, Some(7)));
    SweepPasses(Run(s0, before), 0, Hour(1, 0), 5, Some(7));
    var s := Run(s0, OutOfOrder());
    assert Rivals(s.db[5], s.db[7]) && 5 in s.settled && 7 in s.settled;
  }

  /** An id made early but inserted late escapes both sweeps, though each reports a smaller id
      whenever there is one and nothing is rescheduled: two settled bookings overlap. */
  lemma OutOfOrderIdsDoubleBook()
    ensures KeepsThroughout(LowerReported, Start(map[]), OutOfOrder())
    ensures KeepsThroughout(NothingRescheduled, Start(map[]), OutOfOrder())
    ensures !SettledDisjoint(Run(Start(map[]), OutOfOrder()))
  {
    OutOfOrderReportsLower();
    OutOfOrderMovesNothing();
    OutOfOrderOverlaps();
  }

  ghost function OneSettled(): seq<Event> {
    AllChecked(0, HALF, 2 * HALF) + [Insert(0, 1)] + [Sweep(0, None)]
  }

  lemma OneSettledState()
    ensures var s := Run(Start(map[]), OneSettled());
      && s.db == s.inserted == map[1 := Hour(1, 0).Booked()] && s.settled == {1}
      && 1 in s.requests && s.requests[1] == Inserting(Hour(2, HALF))
      && 2 in s.requests && s.requests[2] == Inserting(Hour(3, 2 * HALF))
  {
    var s0, es := Start(map[]), AllChecked(0, HALF, 2 * HALF);
    AllCheckedState(0, HALF, 2 * HALF);
    RunThen(s0, es, Insert(0, 1));
    RunThen(s0, es + [Insert(0, 1)], Sweep(0, None));
    var s1 := Run(s0, es);
    InsertPasses(s1, 0, Hour(1, 0), 1);
    SweepPasses(Step(s1, Insert(0, 1)), 0, Hour(1, 0), 1, None);
  }

  ghost function ArbitraryMatch(): seq<Event> {
    OneSettled() + [Insert(1, 2)] + [Insert(2, 3)] + [Sweep(1, Some(3))]
  }

  /** The end of the race: two more inserts, and a sweep that sees the later one. */
  lemma LaterMatchSettles(s1: State)
    requires s1.db == s1.inserted == map[1 := Hour(1, 0).Booked()] && s1.settled == {1}
    requires 1 in s1.requests && s1.requests[1] == Inserting(Hour(2, HALF))
    requires 2 in s1.requests && s1.requests[2] == Inserting(Hour(3, 2 * HALF))
    ensures !SettledDisjoint(Step(Step(Step(s1, Insert(1, 2)), Insert(2, 3)), Sweep(1, Some(3))))
  {
    InsertPasses(s1, 1, Hour(2, HALF), 2);
    var s2 := Step(s1, Insert(1, 2));
    InsertPasses(s2, 2, Hour(3, 2 * HALF), 3);
    var s3 := Step(s2, Insert(2, 3));
    SweepPasses(s3, 1, Hour(2, HALF), 2, Some(3));
    var s4 := Step(s3, Sweep(1, Some(3)));
    assert Rivals(s4.db[1], s4.db[2]) && 1 in s4.settled && 2 in s4.settled;
  }

  lemma ArbitraryMatchIdsInOrder()
    ensures KeepsThroughout(IdsInOrder, Start(map[]), ArbitraryMatch())
  {
    var s0, es := Start(map[]), OneSettled();
    var checked := AllChecked(0, HALF, 2 * HALF);
    AllCheckedState(0, HALF, 2 * HALF);
    AllCheckedHeeds(IdsInOrder, 0, HALF, 2 * HALF);
    HeedingKeeps(IdsInOrder, s0, checked);
    KeepsThen(IdsInOrder, s0, checked, Insert(0, 1));
    KeepsThen(IdsInOrder, s0, checked + [Insert(0, 1)], Sweep(0, None));
    OneSettledState();
    KeepsThen(IdsInOrder, s0, es, Insert(1, 2));
    RunThen(s0, es, Insert(1, 2));
    InsertPasses(Run(s0, es), 1, Hour(2, HALF), 2);
    KeepsThen(IdsInOrder, s0, es + [Insert(1, 2)], Insert(2, 3));
    KeepsThen(IdsInOrder, s0, es + [Insert(1, 2)] + [Insert(2, 3)], Sweep(1, Some(3)));
  }

  lemma ArbitraryMatchMovesNothing()
    ensures KeepsThroughout(NothingRescheduled, Start(map[]), ArbitraryMatch())
  {
    var es := AllChecked(0, HALF, 2 * HALF);
    AllCheckedHeeds(NothingRescheduled, 0, HALF, 2 * HALF);
    HeedThen(NothingRescheduled, es, Insert(0, 1));
    HeedThen(NothingRescheduled, es + [Insert(0, 1)], Sweep(0, None));
    HeedThen(NothingRescheduled, OneSettled(), Insert(1, 2));
    HeedThen(NothingRescheduled, OneSettled() + [Insert(1, 2)], Insert(2, 3));
    HeedThen(NothingRescheduled, OneSettled() + [Insert(1, 2)] + [Insert(2, 3)], Sweep(1, Some(3)));
    HeedingKeeps(NothingRescheduled, Start(map[]), ArbitraryMatch());
  }

  lemma ArbitraryMatchOverlaps()
    ensures !SettledDisjoint(Run(Start(map[]), ArbitraryMatch()))
  {
    var s0, es := Start(map[]), OneSettled();
    OneSettledState();
    RunThen(s0, es, Insert(1, 2));
    RunThen(s0, es + [Insert(1, 2)], Insert(2, 3));
    RunThen(s0, es + [Insert(1, 2)] + [Insert(2, 3)], Sweep(1, Some(3)));
    LaterMatchSettles(Run(s0, es));
  }

  /** A sweep that happens to report the later of two overlaps keeps a booking that overlaps a
      settled one, though ids follow insertion order and nothing is rescheduled. */
  lemma ArbitraryMatchDoubleBooks()
    ensures KeepsThroughout(IdsInOrder, Start(map[]), ArbitraryMatch())
    ensures KeepsThroughout(NothingRescheduled, Start(map[]), ArbitraryMatch())
    ensures !SettledDisjoint(Run(Start(map[]), ArbitraryMatch()))
  {
    ArbitraryMatchIdsInOrder();
    ArbitraryMatchMovesNothing();
    ArbitraryMatchOverlaps();
  }

  ghost function BeforeMove(): seq<Event> {
    AllChecked(10 * HALF, HALF, 0) + [Insert(0, 1)] + [Sweep(0, None)]
  }

  lemma BeforeMoveState()
    ensures var s := Run(Start(map[]), BeforeMove());
      && s.db == s.inserted == map[1 := Hour(1, 10 * HALF).Booked()]
      && s.settled == {1} && s.schedules == map[9 := OneSlot(0)]
      && 1 in s.requests && s.requests[1] == Inserting(Hour(2, HALF)) && 3 !in s.requests
  {
    var s0, es := Start(map[]), AllChecked(10 * HALF, HALF, 0);
    AllCheckedState(10 * HALF, HALF, 0);
    RunThen(s0, es, Insert(0, 1));
    RunThen(s0, es + [Insert(0, 1)], Sweep(0, None));
    var s1 := Run(s0, es);
    InsertPasses(s1, 0, Hour(1, 10 * HALF), 1);
    SweepPasses(Step(s1, Insert(0, 1)), 0, Hour(1, 10 * HALF), 1, None);
  }

  /** A reschedule that passes the gate and both checks. */
  function MoveEvents(r: nat, id: nat, startAt: int): seq<Event> {
    [BeginMove(r, 0, id, startAt)] + [MoveGateCheck(r, 0)] + [ClientCheck(r)] + [ConsultantCheck(r)]
  }

  lemma MoveChecksPass(s: State, r: nat, id: nat, startAt: int)
    requires s.db.Keys == {id}
    ensures forall was, d | r in s.requests && s.requests[r] == MoveCheckingClient(id, was, startAt, d) ::
      ClientCheckStep(s, r) == Goto(s, r, MoveCheckingConsultant(id, was, startAt, d))
    ensures forall was, d | r in s.requests && s.requests[r] == MoveCheckingConsultant(id, was, startAt, d) ::
      ConsultantCheckStep(s, r) == Goto(s, r, Moving(id, was, startAt, d))
  {
  }

  lemma MoveGatePasses(s: State, r: nat, id: nat, was: Booking, startAt: int)
    requires r !in s.requests && Accepts(ScheduleOf(s, was.hrUserId), 0, startAt)
    ensures Step(Goto(s, r, MoveGate(id, was, startAt)), MoveGateCheck(r, 0))
      == Goto(s, r, MoveCheckingClient(id, was, startAt, ScheduleOf(s, was.hrUserId).durationMinutes))
  {
    var s1 := Goto(s, r, MoveGate(id, was, startAt));
    assert ScheduleOf(s1, was.hrUserId) == ScheduleOf(s, was.hrUserId);
    assert Step(s1, MoveGateCheck(r, 0)).requests
      == s.requests[r := MoveCheckingClient(id, was, startAt, ScheduleOf(s, was.hrUserId).durationMinutes)];
  }

  lemma MoveBegins(s: State, r: nat, id: nat, startAt: int)
    requires r !in s.requests && id in s.db && Active(s.db[id])
    requires 0 < s.db[id].startAt && s.db[id].rescheduleCount < RESCHEDULE_MAX && startAt != s.db[id].startAt
    requires Accepts(ScheduleOf(s, s.db[id].hrUserId), 0, startAt)
    ensures Run(s, [BeginMove(r, 0, id, startAt)] + [MoveGateCheck(r, 0)])
      == Goto(s, r, MoveCheckingClient(id, s.db[id], startAt, ScheduleOf(s, s.db[id].hrUserId).durationMinutes))
  {
    RunOne(s, BeginMove(r, 0, id, startAt));
    RunThen(s, [BeginMove(r, 0, id, startAt)], MoveGateCheck(r, 0));
    MoveGatePasses(s, r, id, s.db[id], startAt);
  }

  lemma MovePasses(s: State, r: nat, id: nat, startAt: int)
    requires r !in s.requests && id in s.db && Active(s.db[id])
    requires 0 < s.db[id].startAt && s.db[id].rescheduleCount < RESCHEDULE_MAX && startAt != s.db[id].startAt
    requires Accepts(ScheduleOf(s, s.db[id].hrUserId), 0, startAt)
    requires s.db.Keys == {id}
    ensures Run(s, MoveEvents(r, id, startAt))
      == Goto(s, r, Moving(id, s.db[id], startAt, ScheduleOf(s, s.db[id].hrUserId).durationMinutes))
  {
    var was, d := s.db[id], ScheduleOf(s, s.db[id].hrUserId).durationMinutes;
    var begun := [BeginMove(r, 0, id, startAt)] + [MoveGateCheck(r, 0)];
    RunThen(s, begun, ClientCheck(r));
    RunThen(s, begun + [ClientCheck(r)], ConsultantCheck(r));
    MoveBegins(s, r, id, startAt);
    var s2 := Goto(s, r, MoveCheckingClient(id, was, startAt, d));
    var s3 := Goto(s2, r, MoveCheckingConsultant(id, was, startAt, d));
    MoveChecksPass(s2, r, id, startAt);
    MoveChecksPass(s3, r, id, startAt);
    assert Goto(s3, r, Moving(id, was, startAt, d)).requests == s.requests[r := Moving(id, was, startAt, d)];
  }

  ghost function MoveChecked(): seq<Event> {
    BeforeMove() + MoveEvents(3, 1, 0)
  }

  ghost function RescheduleRace(): seq<Event> {
    MoveChecked() + [Insert(1, 2)] + [Sweep(1, None)] + [Move(3)]
  }

  lemma BeforeMoveKeeps()
    ensures KeepsThroughout(IdsInOrder, Start(map[]), BeforeMove())
    ensures KeepsThroughout(LowerReported, Start(map[]), BeforeMove())
  {
    var s0, es := Start(map[]), AllChecked(10 * HALF, HALF, 0);
    AllCheckedState(10 * HALF, HALF, 0);
    AllCheckedHeeds(IdsInOrder, 10 * HALF, HALF, 0);
    AllCheckedHeeds(LowerReported, 10 * HALF, HALF, 0);
    HeedingKeeps(IdsInOrder, s0, es);
    HeedThen(LowerReported, es, Insert(0, 1));
    KeepsThen(IdsInOrder, s0, es, Insert(0, 1));
    KeepsThen(IdsInOrder, s0, es + [Insert(0, 1)], Sweep(0, None));
    HeedingKeeps(LowerReported, s0, es + [Insert(0, 1)]);
    RunThen(s0, es, Insert(0, 1));
    InsertPasses(Run(s0, es), 0, Hour(1, 10 * HALF), 1);
    NothingLower(Run(s0, es + [Insert(0, 1)]), 0, None);
    KeepsThen(LowerReported, s0, es + [Insert(0, 1)], Sweep(0, None));
  }

  lemma {:induction false} HeedingConcat(rule: Rule, s: State, es: seq<Event>, fs: seq<Event>)
    requires KeepsThroughout(rule, s, es) && AllHeed(rule, fs)
    ensures KeepsThroughout(rule, s, es + fs)
    decreases |es|
  {
    if es == [] {
      assert es + fs == fs;
      HeedingKeeps(rule, s, fs);
    } else {
      assert (es + fs)[1..] == es[1..] + fs;
      HeedingConcat(rule, Step(s, es[0]), es[1..], fs);
    }
  }

  lemma MoveEventsHeed(rule: Rule, r: nat, id: nat, startAt: int)
    requires !rule.NothingRescheduled?
    ensures AllHeed(rule, MoveEvents(r, id, startAt))
  {
  }

  lemma MoveCheckedKeeps(rule: Rule)
    requires !rule.NothingRescheduled?
    ensures KeepsThroughout(rule, Start(map[]), MoveChecked())
  {
    BeforeMoveKeeps();
    MoveEventsHeed(rule, 3, 1, 0);
    HeedingConcat(rule, Start(map[]), BeforeMove(), MoveEvents(3, 1, 0));
  }

  lemma MoveCheckedState()
    ensures var s := Run(Start(map[]), MoveChecked());
      && s.db == s.inserted == map[1 := Hour(1, 10 * HALF).Booked()] && s.settled == {1}
      && 1 in s.requests && s.requests[1] == Inserting(Hour(2, HALF))
      && 3 in s.requests && s.requests[3] == Moving(1, Hour(1, 10 * HALF).Booked(), 0, 60)
  {
    var s0 := Start(map[]);
    BeforeMoveState();
    RunConcat(s0, BeforeMove(), MoveEvents(3, 1, 0));
    var s := Run(s0, BeforeMove());
    assert ScheduleOf(s, 9) == OneSlot(0);
    MovePasses(s, 3, 1, 0);
    assert Run(s0, MoveChecked()) == Goto(s, 3, Moving(1, s.db[1], 0, 60));
  }

  lemma RescheduleRaceIdsInOrder()
    ensures KeepsThroughout(IdsInOrder, Start(map[]), RescheduleRace())
  {
    var s0, es := Start(map[]), MoveChecked();
    MoveCheckedKeeps(IdsInOrder);
    MoveCheckedState();
    KeepsThen(IdsInOrder, s0, es, Insert(1, 2));
    KeepsThen(IdsInOrder, s0, es + [Insert(1, 2)], Sweep(1, None));
    KeepsThen(IdsInOrder, s0, es + [Insert(1, 2)] + [Sweep(1, None)], Move(3));
  }

  lemma RescheduleRaceReportsLower()
    ensures KeepsThroughout(LowerReported, Start(map[]), RescheduleRace())
  {
    var s0, es := Start(map[]), MoveChecked();
    MoveCheckedKeeps(LowerReported);
    MoveCheckedState();
    KeepsThen(LowerReported, s0, es, Insert(1, 2));
    RunThen(s0, es, Insert(1, 2));
    InsertPasses(Run(s0, es), 1, Hour(2, HALF), 2);
    KeepsThen(LowerReported, s0, es + [Insert(1, 2)], Sweep(1, None));
    KeepsThen(LowerReported, s0, es + [Insert(1, 2)] + [Sweep(1, None)], Move(3));
  }

  lemma RescheduleRaceOverlaps()
    ensures !SettledDisjoint(Run(Start(map[]), RescheduleRace()))
  {
    var s0, es := Start(map[]), MoveChecked();
    MoveCheckedState();
    RunThen(s0, es, Insert(1, 2));
    RunThen(s0, es + [Insert(1, 2)], Sweep(1, None));
    RunThen(s0, es + [Insert(1, 2)] + [Sweep(1, None)], Move(3));
    InsertMovesOn(Run(s0, es));
  }

  /** A reschedule checked before a create inserts lands on top of it, for it has no sweep of its
      own, though ids follow insertion order and sweeps report every smaller one. */
  lemma RescheduleRaceDoubleBooks()
    ensures KeepsThroughout(IdsInOrder, Start(map[]), RescheduleRace())
    ensures KeepsThroughout(LowerReported, Start(map[]), RescheduleRace())
    ensures !SettledDisjoint(Run(Start(map[]), RescheduleRace()))
  {
    RescheduleRaceIdsInOrder();
    RescheduleRaceReportsLower();
    RescheduleRaceOverlaps();
  }

  /** The end of the race: the create inserts and settles, then the reschedule lands. */
  lemma InsertMovesOn(s1: State)
    requires s1.db == s1.inserted == map[1 := Hour(1, 10 * HALF).Booked()] && s1.settled == {1}
    requires 1 in s1.requests && s1.requests[1] == Inserting(Hour(2, HALF))
    requires 3 in s1.requests && s1.requests[3] == Moving(1, Hour(1, 10 * HALF).Booked(), 0, 60)
    ensures !SettledDisjoint(Step(Step(Step(s1, Insert(1, 2)), Sweep(1, None)), Move(3)))
  {
    InsertPasses(s1, 1, Hour(2, HALF), 2);
    var s2 := Step(s1, Insert(1, 2));
    SweepPasses(s2, 1, Hour(2, HALF), 2, None);
    var s3 := Step(s2, Sweep(1, None));
    assert !KeyTaken(s3.db, SlotKey(9, 0), Some(1));
    var s4 := Step(s3, Move(3));
    assert s4.db[1] == MoveFields(Hour(1, 10 * HALF).Booked(), Hour(1, 10 * HALF).Booked(), 0, 60);
    assert Rivals(s4.db[1], s4.db[2]) && 1 in s4.settled && 2 in s4.settled;
  }
}
