/** When the protocol keeps a consultant's calendar free of overlaps, and when it does not. */
module DoubleBooking {
  import opened Wrappers
  import opened Datetime
  import opened Bookings
  import opened BookingProtocol

  // ----- One unchanging schedule: no overlap in any interleaving -----------------------

  ghost predicate SpacedStarts(sched: Schedule) {
    forall a, b | a in sched.starts && b in sched.starts && a < b ::
      AddMinutes(a, sched.durationMinutes) <= b
  }

  ghost predicate Fits(s: State, hr: nat, startAt: int, durationMinutes: int) {
    startAt in ScheduleOf(s, hr).starts && durationMinutes == ScheduleOf(s, hr).durationMinutes
  }

  ghost predicate RequestFits(s: State, q: Request) {
    match q
    case CreateCheckingClient(t) => Fits(s, t.hrUserId, t.startAt, t.durationMinutes)
    case CreateCheckingConsultant(t) => Fits(s, t.hrUserId, t.startAt, t.durationMinutes)
    case Inserting(t) => Fits(s, t.hrUserId, t.startAt, t.durationMinutes)
    case MoveCheckingClient(_, was, startAt, d) => Fits(s, was.hrUserId, startAt, d)
    case MoveCheckingConsultant(_, was, startAt, d) => Fits(s, was.hrUserId, startAt, d)
    case Moving(_, was, startAt, d) => Fits(s, was.hrUserId, startAt, d)
    case _ => true
  }

  /** Every booking and every pending write lies on its consultant's schedule. */
  ghost predicate OnSchedule(s: State) {
    && (forall id | id in s.db :: Fits(s, s.db[id].hrUserId, s.db[id].startAt, s.db[id].durationMinutes))
    && (forall r | r in s.requests :: RequestFits(s, s.requests[r]))
  }

  lemma GotoStaysOnSchedule(s: State, r: nat, q: Request)
    requires OnSchedule(s) && RequestFits(s, q)
    ensures OnSchedule(Goto(s, r, q))
  {
    var s' := Goto(s, r, q);
    forall x | x in s'.requests ensures RequestFits(s', s'.requests[x]) {
      assert RequestFits(s, s'.requests[x]);
    }
  }

  lemma FinishStaysOnSchedule(s: State, r: nat)
    requires OnSchedule(s)
    ensures OnSchedule(Finish(s, r))
  {
    var s' := Finish(s, r);
    forall x | x in s'.requests ensures RequestFits(s', s'.requests[x]) {
      assert RequestFits(s, s.requests[x]);
    }
  }

  lemma BeginCreateStaysOnSchedule(s: State, r: nat, now: int, userId: nat, hr: nat, startAt: int)
    requires OnSchedule(s)
    ensures OnSchedule(BeginCreateStep(s, r, now, userId, hr, startAt))
  {
    if startAt in ScheduleOf(s, hr).starts {
      GotoStaysOnSchedule(s, r,
        CreateCheckingClient(Ticket(userId, hr, startAt, ScheduleOf(s, hr).durationMinutes)));
    }
  }

  lemma MoveGateStaysOnSchedule(s: State, r: nat, now: int)
    requires OnSchedule(s)
    ensures OnSchedule(MoveGateStep(s, r, now))
  {
    FinishStaysOnSchedule(s, r);
    if r in s.requests && s.requests[r].MoveGate? {
      var MoveGate(id, was, startAt) := s.requests[r];
      if startAt in ScheduleOf(s, was.hrUserId).starts {
        GotoStaysOnSchedule(s, r,
          MoveCheckingClient(id, was, startAt, ScheduleOf(s, was.hrUserId).durationMinutes));
      }
    }
  }

  lemma ClientCheckStaysOnSchedule(s: State, r: nat)
    requires OnSchedule(s)
    ensures OnSchedule(ClientCheckStep(s, r))
  {
    if r in s.requests {
      assert RequestFits(s, s.requests[r]);
      FinishStaysOnSchedule(s, r);
      match s.requests[r]
      case CreateCheckingClient(t) => GotoStaysOnSchedule(s, r, CreateCheckingConsultant(t));
      case MoveCheckingClient(id, was, startAt, d) =>
        GotoStaysOnSchedule(s, r, MoveCheckingConsultant(id, was, startAt, d));
      case _ =>
    }
  }

  lemma ConsultantCheckStaysOnSchedule(s: State, r: nat)
    requires OnSchedule(s)
    ensures OnSchedule(ConsultantCheckStep(s, r))
  {
    if r in s.requests {
      assert RequestFits(s, s.requests[r]);
      FinishStaysOnSchedule(s, r);
      match s.requests[r]
      case CreateCheckingConsultant(t) => GotoStaysOnSchedule(s, r, Inserting(t));
      case MoveCheckingConsultant(id, was, startAt, d) =>
        GotoStaysOnSchedule(s, r, Moving(id, was, startAt, d));
      case _ =>
    }
  }

  lemma InsertStaysOnSchedule(s: State, r: nat, id: nat)
    requires OnSchedule(s)
    ensures OnSchedule(InsertStep(s, r, id))
  {
  }

  lemma SweepStaysOnSchedule(s: State, r: nat, found: Option<nat>)
    requires OnSchedule(s)
    ensures OnSchedule(SweepStep(s, r, found))
  {
    FinishStaysOnSchedule(s, r);
    if r in s.requests && s.requests[r].Sweeping? {
      GotoStaysOnSchedule(s, r, StandingDown(s.requests[r].t, s.requests[r].id));
    }
  }

  lemma StandDownStaysOnSchedule(s: State, r: nat)
    requires OnSchedule(s)
    ensures OnSchedule(StandDownStep(s, r))
  {
    FinishStaysOnSchedule(s, r);
  }

  lemma MoveStaysOnSchedule(s: State, r: nat)
    requires Sound(s) && OnSchedule(s)
    ensures OnSchedule(MoveStep(s, r))
  {
    if r in s.requests && s.requests[r].Moving? {
      assert RequestFits(s, s.requests[r]) && RequestSound(s, s.requests[r]);
    }
  }

  lemma ReleasesStayOnSchedule(s: State, r: nat, id: nat, now: int)
    requires OnSchedule(s)
    ensures OnSchedule(SaveCancelStep(s, r)) && OnSchedule(CompleteStep(s, id, now))
  {
  }

  lemma BeginsStayOnSchedule(s: State, r: nat, now: int, id: nat, startAt: int, byClient: bool)
    requires OnSchedule(s)
    ensures OnSchedule(BeginMoveStep(s, r, now, id, startAt))
    ensures OnSchedule(BeginCancelStep(s, r, now, id, byClient))
  {
    GotoStaysOnSchedule(s, r, Cancelling(id));
    if id in s.db {
      GotoStaysOnSchedule(s, r, MoveGate(id, s.db[id], startAt));
    }
  }

  lemma StepStaysOnSchedule(s: State, e: Event)
    requires Sound(s) && OnSchedule(s) && !e.SetSchedule?
    ensures OnSchedule(Step(s, e))
  {
    match e
    case BeginCreate(r, now, userId, hr, startAt) =>
      BeginCreateStaysOnSchedule(s, r, now, userId, hr, startAt);
    case MoveGateCheck(r, now) => MoveGateStaysOnSchedule(s, r, now);
    case ClientCheck(r) => ClientCheckStaysOnSchedule(s, r);
    case ConsultantCheck(r) => ConsultantCheckStaysOnSchedule(s, r);
    case Insert(r, id) => InsertStaysOnSchedule(s, r, id);
    case Sweep(r, found) => SweepStaysOnSchedule(s, r, found);
    case StandDown(r) => StandDownStaysOnSchedule(s, r);
    case Move(r) => MoveStaysOnSchedule(s, r);
    case SaveCancel(r) => ReleasesStayOnSchedule(s, r, 0, 0);
    case Complete(id, now) => ReleasesStayOnSchedule(s, 0, id, now);
    case BeginMove(r, now, id, startAt) => BeginsStayOnSchedule(s, r, now, id, startAt, false);
    case BeginCancel(r, now, id, byClient) => BeginsStayOnSchedule(s, r, now, id, 0, byClient);
  }

  lemma StepKeepsSchedules(s: State, e: Event)
    requires !e.SetSchedule?
    ensures Step(s, e).schedules == s.schedules
  {
  }

  predicate ScheduleFixed(es: seq<Event>) {
    forall i | 0 <= i < |es| :: !es[i].SetSchedule?
  }

  lemma {:induction false} RunStaysOnSchedule(s: State, es: seq<Event>)
    requires Sound(s) && OnSchedule(s) && ScheduleFixed(es)
    ensures OnSchedule(Run(s, es)) && Run(s, es).schedules == s.schedules
    decreases |es|
  {
    if es != [] {
      var e := es[0];
      StepSound(s, e);
      StepStaysOnSchedule(s, e);
      StepKeepsSchedules(s, e);
      RunStaysOnSchedule(Step(s, e), es[1..]);
    }
  }

  /** While schedules stay as they are, no interleaving of creates, reschedules, cancellations
      and completions double-books a consultant: offered starts are a slot apart and the slot
      key forbids equal ones. */
  lemma NoOverlapUnderFixedSchedules(schedules: map<nat, Schedule>, es: seq<Event>)
    requires forall hr | hr in schedules :: SpacedStarts(schedules[hr])
    requires ScheduleFixed(es)
    ensures ConsultantsDisjoint(Run(Start(schedules), es).db)
  {
    var s0 := Start(schedules);
    RunSound(s0, es);
    RunStaysOnSchedule(s0, es);
    var s := Run(s0, es);
    forall i, j | i in s.db && j in s.db && i != j && Active(s.db[i]) && Active(s.db[j])
      && s.db[i].hrUserId == s.db[j].hrUserId
      ensures Apart(s.db[i], s.db[j])
    {
      assert SpacedStarts(ScheduleOf(s, s.db[i].hrUserId));
      assert s.db[i].slotKey != s.db[j].slotKey;
    }
  }

  // ----- Competing creates never all stand down ------------------------------------------

  /** Two bookings of one consultant that overlap. */
  predicate Rivals(a: Booking, b: Booking) {
    a.hrUserId == b.hrUserId && !Apart(a, b)
  }

  /** Some booking inserted with a smaller id overlaps `id`. */
  ghost predicate Undercut(inserted: Store, id: nat)
    requires id in inserted
  {
    exists other | other in inserted :: other < id && Rivals(inserted[other], inserted[id])
  }

  predicate StandsDown(s: State, r: nat) {
    r in s.requests && s.requests[r].StandingDown?
  }

  /** Only a sweep that reports a smaller id sets a create to standing down. */
  lemma OnlySweepsStandDown(s: State, e: Event, r: nat)
    requires StandsDown(Step(s, e), r) && !StandsDown(s, r)
    ensures e.Sweep? && e.r == r && e.found.Some? && r in s.requests && s.requests[r].Sweeping?
    ensures var t, id := s.requests[r].t, s.requests[r].id;
      && Step(s, e).requests[r] == StandingDown(t, id)
      && e.found.value < id
      && Conflicts(s.db, Consultant(t.hrUserId), t.startAt, t.EndAt(), Some(id), e.found.value)
  {
  }

  lemma StandingDownStays(s: State, e: Event, r: nat)
    requires StandsDown(Step(s, e), r) && StandsDown(s, r)
    ensures Step(s, e).requests[r] == s.requests[r]
  {
  }

  /** Only standing down removes a booking, and it removes its own. */
  lemma OnlyStandingDownDeletes(s: State, e: Event, id: nat)
    requires id in s.db && id !in Step(s, e).db
    ensures e.StandDown? && StandsDown(s, e.r) && s.requests[e.r].id == id
  {
  }

  /** A create that stands down decided so at a sweep that reported an active rival with a
      smaller id. */
  ghost predicate DecidedAt(s0: State, es: seq<Event>, i: nat, r: nat, id: nat)
    requires i < |es|
  {
    var s := Run(s0, es[..i]);
    && es[i].Sweep? && es[i].r == r && es[i].found.Some? && es[i].found.value < id
    && ActiveIn(s, es[i].found.value) && id in s.inserted
    && Rivals(s.db[es[i].found.value], s.inserted[id])
  }

  lemma {:induction false} StandDownDecided(schedules: map<nat, Schedule>, es: seq<Event>, k: nat, r: nat)
    returns (i: nat)
    requires k <= |es| && StandsDown(Run(Start(schedules), es[..k]), r)
    ensures i < k && DecidedAt(Start(schedules), es, i, r, Run(Start(schedules), es[..k]).requests[r].id)
  {
    var s0 := Start(schedules);
    var s := Run(s0, es[..k - 1]);
    assert es[..k] == es[..k - 1] + [es[k - 1]];
    RunThen(s0, es[..k - 1], es[k - 1]);
    if StandsDown(s, r) {
      StandingDownStays(s, es[k - 1], r);
      i := StandDownDecided(schedules, es, k - 1, r);
    } else {
      OnlySweepsStandDown(s, es[k - 1], r);
      RunSound(s0, es[..k - 1]);
      assert RequestSound(s, s.requests[r]);
      i := k - 1;
    }
  }

  /** In any interleaving, every booking that is deleted had an active rival with a smaller id
      when its create decided to stand down. */
  lemma DeletionJustified(schedules: map<nat, Schedule>, es: seq<Event>, k: nat, id: nat) returns (i: nat)
    requires k < |es| && id in Run(Start(schedules), es[..k]).db
    requires id !in Run(Start(schedules), es[..k + 1]).db
    ensures i < k && es[k].StandDown? && DecidedAt(Start(schedules), es, i, es[k].r, id)
  {
    var s0 := Start(schedules);
    assert es[..k + 1] == es[..k] + [es[k]];
    RunThen(s0, es[..k], es[k]);
    OnlyStandingDownDeletes(Run(s0, es[..k]), es[k], id);
    i := StandDownDecided(schedules, es, k, es[k].r);
  }

  predicate CreateEvent(e: Event) {
    e.BeginCreate? || e.ClientCheck? || e.ConsultantCheck? || e.Insert? || e.Sweep? || e.StandDown?
    || e.SetSchedule?
  }

  predicate CreatesOnly(es: seq<Event>) {
    forall i | 0 <= i < |es| :: CreateEvent(es[i])
  }

  /** Bookings are as they were inserted, and every one gone or going was undercut. */
  ghost predicate Accounted(s: State) {
    && (forall id | id in s.db :: id in s.inserted && s.db[id] == s.inserted[id])
    && (forall id | id in s.inserted && id !in s.db :: Undercut(s.inserted, id))
    && (forall r | r in s.requests && s.requests[r].StandingDown? ::
          s.requests[r].id in s.inserted && Undercut(s.inserted, s.requests[r].id))
  }

  lemma UndercutGrows(inserted: Store, id: nat, more: nat, b: Booking)
    requires id in inserted && Undercut(inserted, id) && more !in inserted
    ensures Undercut(inserted[more := b], id)
  {
    var other :| other in inserted && other < id && Rivals(inserted[other], inserted[id]);
    assert other in inserted[more := b];
  }

  lemma InsertAccounted(s: State, r: nat, id: nat)
    requires Sound(s) && Accounted(s)
    ensures Accounted(InsertStep(s, r, id))
  {
    var s' := InsertStep(s, r, id);
    if s'.inserted != s.inserted {
      forall x | x in s.inserted && Undercut(s.inserted, x) ensures Undercut(s'.inserted, x) {
        UndercutGrows(s.inserted, x, id, s'.inserted[id]);
      }
    }
  }

  lemma SweepAccounted(s: State, r: nat, found: Option<nat>)
    requires Sound(s) && Accounted(s)
    ensures Accounted(SweepStep(s, r, found))
  {
    var s' := SweepStep(s, r, found);
    if s' != s && found.Some? && found.value < s.requests[r].id {
      assert RequestSound(s, s.requests[r]);
      assert Rivals(s.inserted[found.value], s.inserted[s.requests[r].id]);
    }
  }

  lemma GotoAccounted(s: State, r: nat, q: Request)
    requires Accounted(s) && (q.StandingDown? ==> r in s.requests && s.requests[r] == q)
    ensures Accounted(Goto(s, r, q)) && Accounted(Finish(s, r))
  {
  }

  lemma ClientCheckAccounted(s: State, r: nat)
    requires Accounted(s)
    ensures Accounted(ClientCheckStep(s, r))
  {
    if r in s.requests {
      match s.requests[r]
      case CreateCheckingClient(t) => GotoAccounted(s, r, CreateCheckingConsultant(t));
      case MoveCheckingClient(id, was, startAt, d) =>
        GotoAccounted(s, r, MoveCheckingConsultant(id, was, startAt, d));
      case _ =>
    }
  }

  lemma ConsultantCheckAccounted(s: State, r: nat)
    requires Accounted(s)
    ensures Accounted(ConsultantCheckStep(s, r))
  {
    if r in s.requests {
      match s.requests[r]
      case CreateCheckingConsultant(t) => GotoAccounted(s, r, Inserting(t));
      case MoveCheckingConsultant(id, was, startAt, d) =>
        GotoAccounted(s, r, Moving(id, was, startAt, d));
      case _ =>
    }
  }

  lemma StandDownAccounted(s: State, r: nat)
    requires Accounted(s)
    ensures Accounted(StandDownStep(s, r))
  {
  }

  lemma CreateStepAccounted(s: State, e: Event)
    requires Sound(s) && Accounted(s) && CreateEvent(e)
    ensures Accounted(Step(s, e))
  {
    match e
    case Insert(r, id) => InsertAccounted(s, r, id);
    case Sweep(r, found) => SweepAccounted(s, r, found);
    case ClientCheck(r) => ClientCheckAccounted(s, r);
    case ConsultantCheck(r) => ConsultantCheckAccounted(s, r);
    case StandDown(r) => StandDownAccounted(s, r);
    case BeginCreate(_, _, _, _, _) =>
    case SetSchedule(_, _) =>
  }

  lemma {:induction false} CreatesAccounted(s: State, es: seq<Event>)
    requires Sound(s) && Accounted(s) && CreatesOnly(es)
    ensures Sound(Run(s, es)) && Accounted(Run(s, es))
    decreases |es|
  {
    if es != [] {
      StepSound(s, es[0]);
      CreateStepAccounted(s, es[0]);
      CreatesAccounted(Step(s, es[0]), es[1..]);
    }
  }

  /** Among competing creates, the one with the smallest id of its overlapping group is there to
      stay, in whatever order ids and inserts arrive and whichever matches the sweeps report. */
  lemma SmallestSurvives(schedules: map<nat, Schedule>, es: seq<Event>, id: nat)
    requires CreatesOnly(es)
    requires var s := Run(Start(schedules), es); id in s.inserted && !Undercut(s.inserted, id)
    ensures var s := Run(Start(schedules), es); id in s.db && s.db[id] == s.inserted[id]
  {
    CreatesAccounted(Start(schedules), es);
  }

  /** Each step of the path goes to an overlapping booking with a smaller id. */
  ghost predicate Descends(inserted: Store, path: seq<nat>) {
    && (forall k | 0 <= k < |path| :: path[k] in inserted)
    && (forall k | 0 < k < |path| ::
          path[k] < path[k - 1] && Rivals(inserted[path[k]], inserted[path[k - 1]]))
  }

  lemma DescendFrom(inserted: Store, id: nat, rest: seq<nat>)
    requires rest != [] && Descends(inserted, rest) && id in inserted
    requires rest[0] < id && Rivals(inserted[rest[0]], inserted[id])
    ensures Descends(inserted, [id] + rest)
  {
    var path := [id] + rest;
    assert forall k | 0 < k < |path| :: path[k] == rest[k - 1];
  }

  lemma RivalOf(s: State, id: nat) returns (other: nat)
    requires Accounted(s) && id in s.inserted && id !in s.db
    ensures other in s.inserted && other < id && Rivals(s.inserted[other], s.inserted[id])
  {
    assert Undercut(s.inserted, id);
    other :| other in s.inserted && other < id && Rivals(s.inserted[other], s.inserted[id]);
  }

  lemma {:induction false} PathToSurvivor(s: State, id: nat) returns (path: seq<nat>)
    requires Accounted(s) && id in s.inserted
    ensures path != [] && path[0] == id && Descends(s.inserted, path) && path[|path| - 1] in s.db
    decreases id
  {
    if id in s.db {
      path := [id];
    } else {
      var other := RivalOf(s, id);
      var rest := PathToSurvivor(s, other);
      DescendFrom(s.inserted, id, rest);
      path := [id] + rest;
    }
  }

  /** Competing creates never all stand down: from every inserted booking a chain of overlaps
      with falling ids leads to one that stayed. */
  lemma NeverAllStandDown(schedules: map<nat, Schedule>, es: seq<Event>, id: nat) returns (path: seq<nat>)
    requires CreatesOnly(es) && id in Run(Start(schedules), es).inserted
    ensures path != [] && path[0] == id && Descends(Run(Start(schedules), es).inserted, path)
    ensures path[|path| - 1] in Run(Start(schedules), es).db
  {
    CreatesAccounted(Start(schedules), es);
    path := PathToSurvivor(Run(Start(schedules), es), id);
  }

  // ----- Changing schedules: settled bookings ---------------------------------------------

  /** No two bookings that are active and whose create has returned overlap. */
  predicate SettledDisjoint(s: State) {
    forall i, j | i in s.settled && j in s.settled && i != j && ActiveIn(s, i) && ActiveIn(s, j) ::
      !Rivals(s.db[i], s.db[j])
  }

  /** The sweep reports an overlap with a smaller id whenever there is one. */
  ghost predicate ReportsLower(s: State, r: nat, found: Option<nat>) {
    r in s.requests && s.requests[r].Sweeping? ==>
      var t, id := s.requests[r].t, s.requests[r].id;
      (exists j | j in s.db :: j < id && Conflicts(s.db, Consultant(t.hrUserId), t.startAt, t.EndAt(), Some(id), j))
      ==> found.Some? && found.value < id
  }

  /** What the settled bookings rely on. */
  datatype Rule = IdsInOrder | LowerReported | NothingRescheduled

  ghost predicate Keeps(rule: Rule, s: State, e: Event) {
    match rule
    case IdsInOrder => e.Insert? ==> forall j | j in s.inserted :: j < e.id
    case LowerReported => e.Sweep? ==> ReportsLower(s, e.r, e.found)
    case NothingRescheduled => !e.BeginMove?
  }

  ghost predicate KeepsThroughout(rule: Rule, s: State, es: seq<Event>)
    decreases |es|
  {
    es == [] || (Keeps(rule, s, es[0]) && KeepsThroughout(rule, Step(s, es[0]), es[1..]))
  }

  /** Ids follow insertion order, sweeps report lower overlaps, and nothing is rescheduled. */
  ghost predicate Disciplined(s: State, e: Event) {
    Keeps(IdsInOrder, s, e) && Keeps(LowerReported, s, e) && Keeps(NothingRescheduled, s, e)
  }

  ghost predicate DisciplinedRun(s: State, es: seq<Event>) {
    && KeepsThroughout(IdsInOrder, s, es)
    && KeepsThroughout(LowerReported, s, es)
    && KeepsThroughout(NothingRescheduled, s, es)
  }

  lemma {:induction false} KeepsThen(rule: Rule, s: State, es: seq<Event>, e: Event)
    ensures KeepsThroughout(rule, s, es + [e]) <==> KeepsThroughout(rule, s, es) && Keeps(rule, Run(s, es), e)
    decreases |es|
  {
    if es == [] {
      assert ([e])[1..] == [];
    } else {
      assert (es + [e])[1..] == es[1..] + [e];
      KeepsThen(rule, Step(s, es[0]), es[1..], e);
    }
  }

  predicate Heeds(rule: Rule, e: Event) {
    match rule
    case IdsInOrder => !e.Insert?
    case LowerReported => !e.Sweep?
    case NothingRescheduled => !e.BeginMove?
  }

  predicate AllHeed(rule: Rule, es: seq<Event>) {
    forall i | 0 <= i < |es| :: Heeds(rule, es[i])
  }

  lemma HeedThen(rule: Rule, es: seq<Event>, e: Event)
    requires AllHeed(rule, es) && Heeds(rule, e)
    ensures AllHeed(rule, es + [e])
  {
  }

  /** Events a rule does not speak of keep it. */
  lemma {:induction false} HeedingKeeps(rule: Rule, s: State, es: seq<Event>)
    requires AllHeed(rule, es)
    ensures KeepsThroughout(rule, s, es)
    decreases |es|
  {
    if es != [] {
      HeedingKeeps(rule, Step(s, es[0]), es[1..]);
    }
  }

  predicate SameTimes(a: Booking, b: Booking) {
    a.startAt == b.startAt && a.endAt == b.endAt
  }

  /** No active booking with a smaller id overlaps a settled one. */
  predicate SettledClear(s: State) {
    forall i, j | j in s.settled && ActiveIn(s, i) && ActiveIn(s, j) && i < j ::
      !Rivals(s.db[i], s.db[j])
  }

  predicate NothingMoves(s: State) {
    && (forall r | r in s.requests :: !s.requests[r].Moving? && !s.requests[r].MoveCheckingConsultant?
          && !s.requests[r].MoveCheckingClient? && !s.requests[r].MoveGate?)
    && (forall id | id in s.db :: id in s.inserted && SameTimes(s.db[id], s.inserted[id]))
  }

  lemma WritesMoveNothing(s: State, r: nat, id: nat, now: int)
    requires Sound(s) && NothingMoves(s)
    ensures NothingMoves(InsertStep(s, r, id)) && NothingMoves(StandDownStep(s, r))
    ensures NothingMoves(SaveCancelStep(s, r)) && NothingMoves(CompleteStep(s, id, now))
  {
  }

  lemma ChecksMoveNothing(s: State, r: nat)
    requires NothingMoves(s)
    ensures NothingMoves(ClientCheckStep(s, r)) && NothingMoves(ConsultantCheckStep(s, r))
  {
  }

  lemma GotoMovesNothing(s: State, r: nat, q: Request)
    requires NothingMoves(s)
    requires !q.Moving? && !q.MoveCheckingConsultant? && !q.MoveCheckingClient? && !q.MoveGate?
    ensures NothingMoves(Goto(s, r, q)) && NothingMoves(Finish(s, r))
  {
  }

  lemma StartsMoveNothing(s: State, r: nat, now: int, userId: nat, hr: nat, startAt: int, id: nat, byClient: bool)
    requires NothingMoves(s)
    ensures NothingMoves(BeginCreateStep(s, r, now, userId, hr, startAt))
    ensures NothingMoves(BeginCancelStep(s, r, now, id, byClient))
  {
    GotoMovesNothing(s, r, CreateCheckingClient(Ticket(userId, hr, startAt, ScheduleOf(s, hr).durationMinutes)));
    GotoMovesNothing(s, r, Cancelling(id));
  }

  lemma SweepMovesNothing(s: State, r: nat, found: Option<nat>)
    requires NothingMoves(s)
    ensures NothingMoves(SweepStep(s, r, found))
  {
    if r in s.requests && s.requests[r].Sweeping? {
      GotoMovesNothing(s, r, StandingDown(s.requests[r].t, s.requests[r].id));
    }
  }

  lemma StepMovesNothing(s: State, e: Event)
    requires Sound(s) && NothingMoves(s) && Disciplined(s, e)
    ensures NothingMoves(Step(s, e))
  {
    match e
    case Insert(r, id) => WritesMoveNothing(s, r, id, 0);
    case StandDown(r) => WritesMoveNothing(s, r, 0, 0);
    case SaveCancel(r) => WritesMoveNothing(s, r, 0, 0);
    case Complete(id, now) => WritesMoveNothing(s, 0, id, now);
    case ClientCheck(r) => ChecksMoveNothing(s, r);
    case ConsultantCheck(r) => ChecksMoveNothing(s, r);
    case BeginCreate(r, now, userId, hr, startAt) => StartsMoveNothing(s, r, now, userId, hr, startAt, 0, false);
    case Sweep(r, found) => SweepMovesNothing(s, r, found);
    case BeginCancel(r, now, id, byClient) => StartsMoveNothing(s, r, now, 0, 0, 0, id, byClient);
    case MoveGateCheck(_, _) =>
    case Move(_) =>
    case SetSchedule(_, _) =>
  }

  lemma StepSettledInserted(s: State, e: Event)
    requires Sound(s) && s.settled <= s.inserted.Keys
    ensures Step(s, e).settled <= Step(s, e).inserted.Keys
  {
    if e.Sweep? && e.r in s.requests {
      assert RequestSound(s, s.requests[e.r]);
    }
  }

  lemma SweepSettledClear(s: State, r: nat, found: Option<nat>)
    requires Sound(s) && NothingMoves(s) && ReportsLower(s, r, found)
    requires SettledClear(s) && s.settled <= s.inserted.Keys
    ensures SettledClear(SweepStep(s, r, found))
  {
    if SweepStep(s, r, found).settled != s.settled {
      var t, id := s.requests[r].t, s.requests[r].id;
      assert RequestSound(s, s.requests[r]);
      forall i | ActiveIn(s, i) && ActiveIn(s, id) && i < id ensures !Rivals(s.db[i], s.db[id]) {
        assert !Conflicts(s.db, Consultant(t.hrUserId), t.startAt, t.EndAt(), Some(id), i);
      }
    }
  }

  lemma InsertSettledClear(s: State, r: nat, id: nat)
    requires Sound(s) && forall j | j in s.inserted :: j < id
    requires SettledClear(s) && s.settled <= s.inserted.Keys
    ensures SettledClear(InsertStep(s, r, id))
  {
  }

  lemma ReleaseSettledClear(s: State, r: nat, id: nat, now: int)
    requires SettledClear(s)
    ensures SettledClear(SaveCancelStep(s, r)) && SettledClear(CompleteStep(s, id, now))
    ensures SettledClear(StandDownStep(s, r))
  {
  }

  lemma ChecksSettledClear(s: State, r: nat)
    requires SettledClear(s)
    ensures SettledClear(ClientCheckStep(s, r)) && SettledClear(ConsultantCheckStep(s, r))
  {
  }

  lemma StartsSettledClear(s: State, r: nat, now: int, userId: nat, hr: nat, startAt: int, id: nat, byClient: bool)
    requires SettledClear(s)
    ensures SettledClear(BeginCreateStep(s, r, now, userId, hr, startAt))
    ensures SettledClear(BeginCancelStep(s, r, now, id, byClient))
  {
  }

  lemma StepSettledClear(s: State, e: Event)
    requires Sound(s) && NothingMoves(s) && Disciplined(s, e)
    requires SettledClear(s) && s.settled <= s.inserted.Keys
    ensures SettledClear(Step(s, e))
  {
    match e
    case Sweep(r, found) => SweepSettledClear(s, r, found);
    case Insert(r, id) => InsertSettledClear(s, r, id);
    case SaveCancel(r) => ReleaseSettledClear(s, r, 0, 0);
    case StandDown(r) => ReleaseSettledClear(s, r, 0, 0);
    case Complete(id, now) => ReleaseSettledClear(s, 0, id, now);
    case ClientCheck(r) => ChecksSettledClear(s, r);
    case ConsultantCheck(r) => ChecksSettledClear(s, r);
    case BeginCreate(r, now, userId, hr, startAt) => StartsSettledClear(s, r, now, userId, hr, startAt, 0, false);
    case BeginCancel(r, now, id, byClient) => StartsSettledClear(s, r, now, 0, 0, 0, id, byClient);
    case MoveGateCheck(_, _) =>
    case Move(_) =>
    case SetSchedule(_, _) =>
  }

  lemma {:induction false} RunSettledClear(s: State, es: seq<Event>)
    requires Sound(s) && NothingMoves(s) && DisciplinedRun(s, es)
    requires SettledClear(s) && s.settled <= s.inserted.Keys
    ensures SettledClear(Run(s, es))
    decreases |es|
  {
    if es != [] {
      StepSound(s, es[0]);
      StepMovesNothing(s, es[0]);
      StepSettledClear(s, es[0]);
      StepSettledInserted(s, es[0]);
      RunSettledClear(Step(s, es[0]), es[1..]);
    }
  }

  /** With schedules changing at will between creates, no two settled active bookings of a
      consultant overlap, in any disciplined interleaving. */
  lemma SettledNeverOverlap(schedules: map<nat, Schedule>, es: seq<Event>)
    requires DisciplinedRun(Start(schedules), es)
    ensures SettledDisjoint(Run(Start(schedules), es))
  {
    RunSettledClear(Start(schedules), es);
    var s := Run(Start(schedules), es);
    forall i, j | i in s.settled && j in s.settled && i != j && ActiveIn(s, i) && ActiveIn(s, j)
      ensures !Rivals(s.db[i], s.db[j])
    {
      assert if i < j then !Rivals(s.db[i], s.db[j]) else !Rivals(s.db[j], s.db[i]);
    }
  }
}
