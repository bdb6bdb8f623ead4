/** Checks that are read first and written later: how many requests may be in flight at once
    before the limit on reschedules and the calendars of clients give way
    (src/services/booking.service.ts). */
module InFlight {
  import opened Wrappers
  import opened Sets
  import opened Datetime
  import opened Bookings
  import opened BookingProtocol
  import opened Races

  // ----- The limit on reschedules ------------------------------------------------------------

  predicate Reschedules(q: Request, id: nat) {
    match q
    case MoveGate(i, _, _) => i == id
    case MoveCheckingClient(i, _, _, _) => i == id
    case MoveCheckingConsultant(i, _, _, _) => i == id
    case Moving(i, _, _, _) => i == id
    case _ => false
  }

  /** The requests in flight that are to move a booking. */
  function MovesOf(s: State, id: nat): set<nat> {
    set r | r in s.requests && Reschedules(s.requests[r], id)
  }

  ghost predicate FewMoves(n: nat, s: State) {
    forall id: nat :: |MovesOf(s, id)| <= n
  }

  /** At no moment are more than `n` reschedules of one booking in flight. */
  ghost predicate FewMovesThroughout(n: nat, s0: State, es: seq<Event>) {
    forall k | 0 <= k <= |es| :: FewMoves(n, Run(s0, es[..k]))
  }

  /** A booking that has used up its reschedules has few enough of them left in flight. */
  ghost predicate Budgeted(n: nat, s: State, id: nat) {
    id in s.db && RESCHEDULE_MAX <= s.db[id].rescheduleCount
    ==> s.db[id].rescheduleCount + |MovesOf(s, id)| < RESCHEDULE_MAX + n
  }

  ghost predicate AllBudgeted(n: nat, s: State) {
    forall id: nat :: Budgeted(n, s, id)
  }

  /** Only the begin of a reschedule puts one in flight, and only below the limit. */
  lemma MovesOnlyBegin(s: State, e: Event, id: nat)
    ensures MovesOf(Step(s, e), id) <= MovesOf(s, id)
      || (e.BeginMove? && id in s.db && s.db[id].rescheduleCount < RESCHEDULE_MAX && Step(s, e).db == s.db)
  {
  }

  /** No other step raises a count. */
  lemma CountsStay(s: State, e: Event, id: nat)
    requires !e.Move? && id in Step(s, e).db
    ensures var c' := Step(s, e).db[id].rescheduleCount;
      c' == 0 || (id in s.db && c' == s.db[id].rescheduleCount)
  {
  }

  /** The update adds one to a count and takes its own request out of flight. */
  lemma MoveCounts(s: State, r: nat, id: nat)
    requires id in MoveStep(s, r).db
    ensures id in s.db
    ensures var c, c' := s.db[id].rescheduleCount, MoveStep(s, r).db[id].rescheduleCount;
      c' == c || (c' == c + 1 && r in MovesOf(s, id) && MovesOf(MoveStep(s, r), id) == MovesOf(s, id) - {r})
  {
    var s' := MoveStep(s, r);
    if s'.db != s.db {
      assert s'.requests == s.requests - {r};
      assert MovesOf(s', id) == MovesOf(s, id) - {r};
    }
  }

  lemma StepBudgeted(n: nat, s: State, e: Event, id: nat)
    requires 1 <= n && FewMoves(n, s) && Budgeted(n, s, id)
    ensures Budgeted(n, Step(s, e), id)
  {
    var s' := Step(s, e);
    if id in s'.db {
      assert |MovesOf(s, id)| <= n;
      MovesOnlyBegin(s, e, id);
      if e.Move? {
        MoveCounts(s, e.r, id);
      } else {
        CountsStay(s, e, id);
      }
      if MovesOf(s', id) <= MovesOf(s, id) {
        Fewer(MovesOf(s', id), MovesOf(s, id));
      }
    }
  }

  lemma {:induction false} RunBudgeted(schedules: map<nat, Schedule>, es: seq<Event>, n: nat, k: nat)
    requires 1 <= n && k <= |es| && FewMovesThroughout(n, Start(schedules), es)
    ensures AllBudgeted(n, Run(Start(schedules), es[..k]))
  {
    if 0 < k {
      var s0 := Start(schedules);
      RunBudgeted(schedules, es, n, k - 1);
      RunUpTo(s0, es, k - 1);
      var s := Run(s0, es[..k - 1]);
      forall id: nat ensures Budgeted(n, Run(s0, es[..k]), id) {
        assert Budgeted(n, s, id);
        StepBudgeted(n, s, es[k - 1], id);
      }
    }
  }

  ghost predicate CountsBelow(s: State, limit: nat) {
    forall id | id in s.db :: s.db[id].rescheduleCount < limit
  }

  /** With at most `n` reschedules of a booking in flight, the limit is passed by at most n - 1. */
  lemma RescheduleLimit(schedules: map<nat, Schedule>, es: seq<Event>, n: nat)
    requires 1 <= n && FewMovesThroughout(n, Start(schedules), es)
    ensures CountsBelow(Run(Start(schedules), es), RESCHEDULE_MAX + n)
  {
    RunBudgeted(schedules, es, n, |es|);
    assert es[..|es|] == es;
    var s := Run(Start(schedules), es);
    forall id | id in s.db ensures s.db[id].rescheduleCount < RESCHEDULE_MAX + n {
      assert Budgeted(n, s, id);
    }
  }

  ghost predicate LimitKept(schedules: map<nat, Schedule>, es: seq<Event>) {
    CountsBelow(Run(Start(schedules), es), RESCHEDULE_MAX + 1)
  }

  /** The documented limit holds in every interleaving with at most `n` reschedules of a booking in
      flight at once, exactly when `n` is at most one. */
  lemma LimitKeptIff(n: nat)
    ensures (forall schedules, es | FewMovesThroughout(n, Start(schedules), es) :: LimitKept(schedules, es))
      <==> n <= 1
  {
    if n <= 1 {
      forall schedules, es | FewMovesThroughout(n, Start(schedules), es) ensures LimitKept(schedules, es) {
        forall k | 0 <= k <= |es| ensures FewMoves(1, Run(Start(schedules), es[..k])) {
          assert FewMoves(n, Run(Start(schedules), es[..k]));
        }
        RescheduleLimit(schedules, es, 1);
      }
    } else {
      var schedules := map[9 := AllDay()];
      FourthReschedule();
      FourReschedulesByTwo();
      TwoAtOnce(n, schedules, FourReschedules());
      assert !LimitKept(schedules, FourReschedules());
    }
  }

  // ----- Two requests at once ------------------------------------------------------------------

  predicate ByTwo(e: Event) {
    e.Complete? || e.SetSchedule? || e.r <= 1
  }

  predicate AllByTwo(es: seq<Event>) {
    forall i | 0 <= i < |es| :: ByTwo(es[i])
  }

  lemma ByTwoConcat(es: seq<Event>, fs: seq<Event>)
    requires AllByTwo(es) && AllByTwo(fs)
    ensures AllByTwo(es + fs)
  {
  }

  predicate OnlyTwo(s: State) {
    s.requests.Keys <= {0, 1}
  }

  lemma CreatesByTwo(s: State, r: nat, now: int, userId: nat, hr: nat, startAt: int, id: nat, found: Option<nat>)
    requires OnlyTwo(s) && r <= 1
    ensures OnlyTwo(BeginCreateStep(s, r, now, userId, hr, startAt)) && OnlyTwo(InsertStep(s, r, id))
    ensures OnlyTwo(SweepStep(s, r, found)) && OnlyTwo(StandDownStep(s, r))
  {
  }

  lemma ChecksByTwo(s: State, r: nat)
    requires OnlyTwo(s) && r <= 1
    ensures OnlyTwo(ClientCheckStep(s, r)) && OnlyTwo(ConsultantCheckStep(s, r))
  {
  }

  lemma OthersByTwo(s: State, r: nat, now: int, id: nat, startAt: int, byClient: bool)
    requires OnlyTwo(s) && r <= 1
    ensures OnlyTwo(BeginMoveStep(s, r, now, id, startAt)) && OnlyTwo(MoveGateStep(s, r, now))
    ensures OnlyTwo(MoveStep(s, r)) && OnlyTwo(BeginCancelStep(s, r, now, id, byClient))
    ensures OnlyTwo(SaveCancelStep(s, r))
  {
  }

  lemma StepByTwo(s: State, e: Event)
    requires OnlyTwo(s) && ByTwo(e)
    ensures OnlyTwo(Step(s, e))
  {
    match e
    case BeginCreate(r, now, userId, hr, startAt) => CreatesByTwo(s, r, now, userId, hr, startAt, 0, None);
    case Insert(r, id) => CreatesByTwo(s, r, 0, 0, 0, 0, id, None);
    case Sweep(r, found) => CreatesByTwo(s, r, 0, 0, 0, 0, 0, found);
    case StandDown(r) => CreatesByTwo(s, r, 0, 0, 0, 0, 0, None);
    case ClientCheck(r) => ChecksByTwo(s, r);
    case ConsultantCheck(r) => ChecksByTwo(s, r);
    case BeginMove(r, now, id, startAt) => OthersByTwo(s, r, now, id, startAt, false);
    case MoveGateCheck(r, now) => OthersByTwo(s, r, now, 0, 0, false);
    case Move(r) => OthersByTwo(s, r, 0, 0, 0, false);
    case BeginCancel(r, now, id, byClient) => OthersByTwo(s, r, now, id, 0, byClient);
    case SaveCancel(r) => OthersByTwo(s, r, 0, 0, 0, false);
    case Complete(_, _) =>
    case SetSchedule(_, _) =>
  }

  lemma {:induction false} RunByTwo(schedules: map<nat, Schedule>, es: seq<Event>, k: nat)
    requires k <= |es| && AllByTwo(es)
    ensures OnlyTwo(Run(Start(schedules), es[..k]))
  {
    if 0 < k {
      RunByTwo(schedules, es, k - 1);
      RunUpTo(Start(schedules), es, k - 1);
      StepByTwo(Run(Start(schedules), es[..k - 1]), es[k - 1]);
    }
  }

  lemma FewAmongTwo(s: State)
    requires OnlyTwo(s)
    ensures FewMoves(2, s) && FewWrites(2, s)
  {
    forall id: nat ensures |MovesOf(s, id)| <= 2 {
      Fewer(MovesOf(s, id), {0, 1});
    }
    forall userId: nat ensures |WritesOf(s, userId)| <= 2 {
      Fewer(WritesOf(s, userId), {0, 1});
    }
  }

  lemma TwoAtOnce(n: nat, schedules: map<nat, Schedule>, es: seq<Event>)
    requires 2 <= n && AllByTwo(es)
    ensures FewMovesThroughout(n, Start(schedules), es) && FewWritesThroughout(n, Start(schedules), es)
  {
    forall k | 0 <= k <= |es| ensures FewMoves(n, Run(Start(schedules), es[..k])) {
      RunByTwo(schedules, es, k);
      FewAmongTwo(Run(Start(schedules), es[..k]));
    }
    forall k | 0 <= k <= |es| ensures FewWrites(n, Run(Start(schedules), es[..k])) {
      RunByTwo(schedules, es, k);
      FewAmongTwo(Run(Start(schedules), es[..k]));
    }
  }

  // ----- Four reschedules ------------------------------------------------------------------------

  /** An hour-long slot at every instant of the first day. */
  ghost function AllDay(): Schedule {
    Schedule(60, 0, 1, iset s | OnFirstDay(s))
  }

  predicate OnFirstDay(s: int) {
    0 <= s < DAY
  }

  /** Client 1 books with consultant 9. */
  function BookedOnce(): seq<Event> {
    Checks(0, 0, 1, 9, 10 * HALF) + [Insert(0, 1)] + [Sweep(0, None)]
  }

  function MovedBy(r: nat, startAt: int): seq<Event> {
    MoveEvents(r, 1, startAt) + [Move(r)]
  }

  function MovedTwice(): seq<Event> {
    BookedOnce() + MovedBy(0, 2 * HALF) + MovedBy(0, 4 * HALF)
  }

  /** Two served reschedules, and two more that both begin before either writes. */
  function FourReschedules(): seq<Event> {
    MovedTwice() + MoveEvents(0, 1, 6 * HALF) + MoveEvents(1, 1, 8 * HALF) + [Move(0)] + [Move(1)]
  }

  /** Nothing but the one booking, `count` times moved. */
  ghost predicate OnlyBooking(s: State, startAt: int, count: nat) {
    && s.requests == map[] && s.schedules == map[9 := AllDay()]
    && s.db.Keys == {1} && Active(s.db[1]) && s.db[1].hrUserId == 9
    && s.db[1].startAt == startAt && s.db[1].rescheduleCount == count
  }

  lemma BookedOnceState()
    ensures OnlyBooking(Run(Start(map[9 := AllDay()]), BookedOnce()), 10 * HALF, 0)
  {
    var s0, t := Start(map[9 := AllDay()]), Hour(1, 10 * HALF);
    var checks := Checks(0, 0, 1, 9, 10 * HALF);
    ChecksPass(s0, 0, 0, 1, 9, 10 * HALF);
    RunThen(s0, checks, Insert(0, 1));
    RunThen(s0, checks + [Insert(0, 1)], Sweep(0, None));
    InsertPasses(Run(s0, checks), 0, t, 1);
    SweepPasses(Run(s0, checks + [Insert(0, 1)]), 0, t, 1, None);
  }

  /** The update lands on the one booking there is. */
  lemma Lands(s: State, r: nat, was: Booking, startAt: int)
    requires r in s.requests && s.requests[r] == Moving(1, was, startAt, 60)
    requires s.db.Keys == {1} && Active(s.db[1])
    ensures Step(s, Move(r))
      == s.(db := s.db[1 := MoveFields(s.db[1], was, startAt, 60)], requests := s.requests - {r})
  {
  }

  lemma MovedOn(s: State, startAt: int, count: nat, to: int)
    requires OnlyBooking(s, startAt, count) && count < RESCHEDULE_MAX
    requires 0 < startAt && startAt != to && 0 <= to < DAY
    ensures OnlyBooking(Run(s, MovedBy(0, to)), to, count + 1)
  {
    MovePasses(s, 0, 1, to);
    RunThen(s, MoveEvents(0, 1, to), Move(0));
    Lands(Run(s, MoveEvents(0, 1, to)), 0, s.db[1], to);
  }

  lemma MovedTwiceState()
    ensures OnlyBooking(Run(Start(map[9 := AllDay()]), MovedTwice()), 4 * HALF, 2)
  {
    var s0 := Start(map[9 := AllDay()]);
    BookedOnceState();
    RunConcat(s0, BookedOnce(), MovedBy(0, 2 * HALF));
    MovedOn(Run(s0, BookedOnce()), 10 * HALF, 0, 2 * HALF);
    RunConcat(s0, BookedOnce() + MovedBy(0, 2 * HALF), MovedBy(0, 4 * HALF));
    MovedOn(Run(s0, BookedOnce() + MovedBy(0, 2 * HALF)), 2 * HALF, 1, 4 * HALF);
  }

  lemma BothMovesChecked(s: State, startAt: int, count: nat, a: int, b: int)
    requires OnlyBooking(s, startAt, count) && count < RESCHEDULE_MAX
    requires 0 < startAt && startAt != a && startAt != b && 0 <= a < DAY && 0 <= b < DAY
    ensures Run(s, MoveEvents(0, 1, a) + MoveEvents(1, 1, b))
      == s.(requests := map[0 := Moving(1, s.db[1], a, 60), 1 := Moving(1, s.db[1], b, 60)])
  {
    RunConcat(s, MoveEvents(0, 1, a), MoveEvents(1, 1, b));
    MovePasses(s, 0, 1, a);
    MovePasses(Run(s, MoveEvents(0, 1, a)), 1, 1, b);
  }

  lemma FourReschedulesByTwo()
    ensures AllByTwo(FourReschedules())
  {
    MovesByTwo(0, 2 * HALF);
    MovesByTwo(0, 4 * HALF);
    MovesByTwo(0, 6 * HALF);
    MovesByTwo(1, 8 * HALF);
    assert AllByTwo(BookedOnce());
    ByTwoConcat(BookedOnce(), MovedBy(0, 2 * HALF));
    ByTwoConcat(BookedOnce() + MovedBy(0, 2 * HALF), MovedBy(0, 4 * HALF));
    ByTwoConcat(MovedTwice(), MoveEvents(0, 1, 6 * HALF));
    ByTwoConcat(MovedTwice() + MoveEvents(0, 1, 6 * HALF), MoveEvents(1, 1, 8 * HALF));
  }

  lemma MovesByTwo(r: nat, startAt: int)
    requires r <= 1
    ensures AllByTwo(MoveEvents(r, 1, startAt)) && AllByTwo(MovedBy(r, startAt))
  {
  }

  /** The end of the race: both updates land. */
  lemma BothLand(s: State, was: Booking)
    requires s.requests == map[0 := Moving(1, was, 6 * HALF, 60), 1 := Moving(1, was, 8 * HALF, 60)]
    requires s.db.Keys == {1} && Active(s.db[1]) && s.db[1].rescheduleCount == 2
    ensures var s' := Step(Step(s, Move(0)), Move(1)); 1 in s'.db && s'.db[1].rescheduleCount == 4
  {
    Lands(s, 0, was, 6 * HALF);
    Lands(Step(s, Move(0)), 1, was, 8 * HALF);
  }

  /** Two reschedules that both read a count of two are both carried out: the count becomes four. */
  lemma FourthReschedule()
    ensures var s := Run(Start(map[9 := AllDay()]), FourReschedules());
      1 in s.db && s.db[1].rescheduleCount == 4
  {
    MovedTwiceState();
    var s0 := Start(map[9 := AllDay()]);
    var s2 := Run(s0, MovedTwice());
    var es := MoveEvents(0, 1, 6 * HALF) + MoveEvents(1, 1, 8 * HALF);
    BothMovesChecked(s2, 4 * HALF, 2, 6 * HALF, 8 * HALF);
    RunConcat(s0, MovedTwice(), es);
    assert MovedTwice() + es == MovedTwice() + MoveEvents(0, 1, 6 * HALF) + MoveEvents(1, 1, 8 * HALF);
    RunThen(s0, MovedTwice() + es, Move(0));
    RunThen(s0, MovedTwice() + es + [Move(0)], Move(1));
    BothLand(Run(s2, es), s2.db[1]);
  }

  // ----- The calendars of clients ----------------------------------------------------------------

  /** The client for whom a request is yet to write. */
  function WritesFor(q: Request): Option<nat> {
    match q
    case CreateCheckingClient(t) => Some(t.userId)
    case CreateCheckingConsultant(t) => Some(t.userId)
    case Inserting(t) => Some(t.userId)
    case MoveGate(_, was, _) => Some(was.userId)
    case MoveCheckingClient(_, was, _, _) => Some(was.userId)
    case MoveCheckingConsultant(_, was, _, _) => Some(was.userId)
    case Moving(_, was, _, _) => Some(was.userId)
    case _ => None
  }

  function WritesOf(s: State, userId: nat): set<nat> {
    set r | r in s.requests && WritesFor(s.requests[r]) == Some(userId)
  }

  ghost predicate FewWrites(n: nat, s: State) {
    forall userId: nat :: |WritesOf(s, userId)| <= n
  }

  /** At no moment do more than `n` creates and reschedules of one client await their write. */
  ghost predicate FewWritesThroughout(n: nat, s0: State, es: seq<Event>) {
    forall k | 0 <= k <= |es| :: FewWrites(n, Run(s0, es[..k]))
  }

  /** A time that a client was found free for, `exclude` aside. */
  datatype Claim = Claim(userId: nat, startAt: int, endAt: int, exclude: Option<nat>)

  /** What a request has checked about its client. */
  function ClaimOf(q: Request): Option<Claim> {
    match q
    case CreateCheckingConsultant(t) => Some(Claim(t.userId, t.startAt, t.EndAt(), None))
    case Inserting(t) => Some(Claim(t.userId, t.startAt, t.EndAt(), None))
    case MoveCheckingConsultant(id, was, startAt, d) =>
      Some(Claim(was.userId, startAt, AddMinutes(startAt, d), Some(id)))
    case Moving(id, was, startAt, d) => Some(Claim(was.userId, startAt, AddMinutes(startAt, d), Some(id)))
    case _ => None
  }

  predicate Holds(db: Store, c: Claim) {
    Free(db, Client(c.userId), c.startAt, c.endAt, c.exclude)
  }

  predicate StillFree(db: Store, q: Request) {
    ClaimOf(q).Some? ==> Holds(db, ClaimOf(q).value)
  }

  ghost predicate ChecksHold(s: State) {
    forall r | r in s.requests :: StillFree(s.db, s.requests[r])
  }

  ghost predicate ClientsSafe(s: State) {
    ClientsDisjoint(s.db) && ChecksHold(s)
  }

  lemma OnlyWriter(s: State, r: nat, q: nat, userId: nat)
    requires FewWrites(1, s) && r in WritesOf(s, userId) && q in WritesOf(s, userId)
    ensures r == q
  {
    assert |WritesOf(s, userId)| <= 1;
    Fewer({r, q}, WritesOf(s, userId));
    assert r != q ==> |{r, q}| == 2;
  }

  /** A write for one client leaves what was checked for another. */
  lemma OthersStillFree(db: Store, id: nat, b: Booking, q: Request)
    requires StillFree(db, q) && WritesFor(q) != Some(b.userId)
    ensures StillFree(db[id := b], q)
  {
    if ClaimOf(q).Some? {
      var c, db' := ClaimOf(q).value, db[id := b];
      forall j | j in db' ensures !Conflicts(db', Client(c.userId), c.startAt, c.endAt, c.exclude, j) {
        assert j != id ==> !Conflicts(db, Client(c.userId), c.startAt, c.endAt, c.exclude, j);
      }
    }
  }

  /** Putting a booking where its client is free keeps clients' bookings disjoint. */
  lemma PutDisjoint(db: Store, id: nat, b: Booking)
    requires ClientsDisjoint(db) && Free(db, Client(b.userId), b.startAt, b.endAt, Some(id))
    ensures ClientsDisjoint(db[id := b])
  {
    forall j | j in db && j != id && Active(db[j]) && db[j].userId == b.userId
      ensures Apart(b, db[j]) && Apart(db[j], b)
    {
      assert !Conflicts(db, Client(b.userId), b.startAt, b.endAt, Some(id), j);
    }
  }

  lemma FreeOfNoneIsFree(db: Store, owner: Owner, startAt: int, endAt: int, id: nat)
    requires Free(db, owner, startAt, endAt, None)
    ensures Free(db, owner, startAt, endAt, Some(id))
  {
    forall j | j in db ensures !Conflicts(db, owner, startAt, endAt, Some(id), j) {
      assert !Conflicts(db, owner, startAt, endAt, None, j);
    }
  }

  lemma InsertClientsSafe(s: State, r: nat, id: nat)
    requires ClientsSafe(s) && FewWrites(1, s)
    ensures ClientsSafe(InsertStep(s, r, id))
  {
    var s' := InsertStep(s, r, id);
    if s'.db != s.db {
      var t := s.requests[r].t;
      assert StillFree(s.db, s.requests[r]);
      FreeOfNoneIsFree(s.db, Client(t.userId), t.startAt, t.EndAt(), id);
      PutDisjoint(s.db, id, t.Booked());
      forall q | q in s'.requests ensures StillFree(s'.db, s'.requests[q]) {
        if q != r {
          if WritesFor(s.requests[q]) == Some(t.userId) {
            OnlyWriter(s, r, q, t.userId);
          }
          OthersStillFree(s.db, id, t.Booked(), s.requests[q]);
        }
      }
    }
  }

  lemma MoveClientsSafe(s: State, r: nat)
    requires Sound(s) && ClientsSafe(s) && FewWrites(1, s)
    ensures ClientsSafe(MoveStep(s, r))
  {
    var s' := MoveStep(s, r);
    if s'.db != s.db {
      var Moving(id, was, startAt, d) := s.requests[r];
      var b := MoveFields(s.db[id], was, startAt, d);
      assert RequestSound(s, s.requests[r]) && StillFree(s.db, s.requests[r]);
      PutDisjoint(s.db, id, b);
      forall q | q in s'.requests ensures StillFree(s'.db, s'.requests[q]) {
        if WritesFor(s.requests[q]) == Some(was.userId) {
          OnlyWriter(s, r, q, was.userId);
        }
        OthersStillFree(s.db, id, b, s.requests[q]);
      }
    }
  }

  /** Every active booking of `db'` is in `db`, at the same times and with the same client. */
  predicate Releases(db: Store, db': Store) {
    forall j | j in db' && Active(db'[j]) ::
      && j in db && Active(db[j]) && db[j].userId == db'[j].userId
      && db[j].startAt == db'[j].startAt && db[j].endAt == db'[j].endAt
  }

  lemma ReleaseKeepsCheck(db: Store, db': Store, q: Request)
    requires Releases(db, db') && StillFree(db, q)
    ensures StillFree(db', q)
  {
    if ClaimOf(q).Some? {
      var c := ClaimOf(q).value;
      forall j | j in db' ensures !Conflicts(db', Client(c.userId), c.startAt, c.endAt, c.exclude, j) {
        assert j in db ==> !Conflicts(db, Client(c.userId), c.startAt, c.endAt, c.exclude, j);
      }
    }
  }

  /** Releasing bookings and finishing requests is safe for clients. */
  lemma ReleaseClientsSafe(s: State, s': State)
    requires ClientsSafe(s) && Releases(s.db, s'.db)
    requires forall r | r in s'.requests :: r in s.requests && s'.requests[r] == s.requests[r]
    ensures ClientsSafe(s')
  {
    forall r | r in s'.requests ensures StillFree(s'.db, s'.requests[r]) {
      ReleaseKeepsCheck(s.db, s'.db, s.requests[r]);
    }
  }

  lemma ReleasesAreSafe(s: State, r: nat, id: nat, now: int)
    requires ClientsSafe(s)
    ensures ClientsSafe(StandDownStep(s, r))
    ensures ClientsSafe(SaveCancelStep(s, r)) && ClientsSafe(CompleteStep(s, id, now))
  {
    ReleaseClientsSafe(s, StandDownStep(s, r));
    ReleaseClientsSafe(s, SaveCancelStep(s, r));
    ReleaseClientsSafe(s, CompleteStep(s, id, now));
  }

  lemma GotoClientsSafe(s: State, r: nat, q: Request)
    requires ClientsSafe(s) && StillFree(s.db, q)
    ensures ClientsSafe(Goto(s, r, q)) && ClientsSafe(Finish(s, r))
  {
  }

  lemma ClientCheckClientsSafe(s: State, r: nat)
    requires ClientsSafe(s)
    ensures ClientsSafe(ClientCheckStep(s, r))
  {
    if r in s.requests {
      GotoClientsSafe(s, r, Cancelling(0));
      match s.requests[r]
      case CreateCheckingClient(t) =>
        if StillFree(s.db, CreateCheckingConsultant(t)) {
          GotoClientsSafe(s, r, CreateCheckingConsultant(t));
        }
      case MoveCheckingClient(id, was, startAt, d) =>
        if StillFree(s.db, MoveCheckingConsultant(id, was, startAt, d)) {
          GotoClientsSafe(s, r, MoveCheckingConsultant(id, was, startAt, d));
        }
      case _ =>
    }
  }

  lemma ConsultantCheckClientsSafe(s: State, r: nat)
    requires ClientsSafe(s)
    ensures ClientsSafe(ConsultantCheckStep(s, r))
  {
    if r in s.requests {
      assert StillFree(s.db, s.requests[r]);
      GotoClientsSafe(s, r, Cancelling(0));
      match s.requests[r]
      case CreateCheckingConsultant(t) => GotoClientsSafe(s, r, Inserting(t));
      case MoveCheckingConsultant(id, was, startAt, d) => GotoClientsSafe(s, r, Moving(id, was, startAt, d));
      case _ =>
    }
  }

  lemma BeginClientsSafe(s: State, r: nat, now: int, id: nat, startAt: int, userId: nat, hr: nat, byClient: bool)
    requires ClientsSafe(s)
    ensures ClientsSafe(BeginCreateStep(s, r, now, userId, hr, startAt))
    ensures ClientsSafe(BeginMoveStep(s, r, now, id, startAt))
    ensures ClientsSafe(BeginCancelStep(s, r, now, id, byClient))
  {
    GotoClientsSafe(s, r, CreateCheckingClient(Ticket(userId, hr, startAt, ScheduleOf(s, hr).durationMinutes)));
    GotoClientsSafe(s, r, Cancelling(id));
    if id in s.db {
      GotoClientsSafe(s, r, MoveGate(id, s.db[id], startAt));
    }
  }

  lemma MoveGateClientsSafe(s: State, r: nat, now: int)
    requires ClientsSafe(s)
    ensures ClientsSafe(MoveGateStep(s, r, now))
  {
    if r in s.requests && s.requests[r].MoveGate? {
      var MoveGate(id, was, startAt) := s.requests[r];
      GotoClientsSafe(s, r, MoveCheckingClient(id, was, startAt, ScheduleOf(s, was.hrUserId).durationMinutes));
    }
  }

  lemma SweepClientsSafe(s: State, r: nat, found: Option<nat>)
    requires ClientsSafe(s)
    ensures ClientsSafe(SweepStep(s, r, found))
  {
    if r in s.requests && s.requests[r].Sweeping? {
      GotoClientsSafe(s, r, StandingDown(s.requests[r].t, s.requests[r].id));
    }
  }

  lemma StepClientsSafe(s: State, e: Event)
    requires Sound(s) && ClientsSafe(s) && FewWrites(1, s)
    ensures ClientsSafe(Step(s, e))
  {
    match e
    case Insert(r, id) => InsertClientsSafe(s, r, id);
    case Move(r) => MoveClientsSafe(s, r);
    case StandDown(r) => ReleasesAreSafe(s, r, 0, 0);
    case SaveCancel(r) => ReleasesAreSafe(s, r, 0, 0);
    case Complete(id, now) => ReleasesAreSafe(s, 0, id, now);
    case ClientCheck(r) => ClientCheckClientsSafe(s, r);
    case ConsultantCheck(r) => ConsultantCheckClientsSafe(s, r);
    case Sweep(r, found) => SweepClientsSafe(s, r, found);
    case MoveGateCheck(r, now) => MoveGateClientsSafe(s, r, now);
    case BeginCreate(r, now, userId, hr, startAt) => BeginClientsSafe(s, r, now, 0, startAt, userId, hr, false);
    case BeginMove(r, now, id, startAt) => BeginClientsSafe(s, r, now, id, startAt, 0, 0, false);
    case BeginCancel(r, now, id, byClient) => BeginClientsSafe(s, r, now, id, 0, 0, 0, byClient);
    case SetSchedule(_, _) =>
  }

  lemma {:induction false} RunClientsSafe(schedules: map<nat, Schedule>, es: seq<Event>, k: nat)
    requires k <= |es| && FewWritesThroughout(1, Start(schedules), es)
    ensures ClientsSafe(Run(Start(schedules), es[..k]))
  {
    if 0 < k {
      RunClientsSafe(schedules, es, k - 1);
      RunSound(Start(schedules), es[..k - 1]);
      RunUpTo(Start(schedules), es, k - 1);
      StepClientsSafe(Run(Start(schedules), es[..k - 1]), es[k - 1]);
    }
  }

  ghost predicate ClientsKept(schedules: map<nat, Schedule>, es: seq<Event>) {
    ClientsDisjoint(Run(Start(schedules), es).db)
  }

  /** No client's active bookings overlap in every interleaving with at most `n` creates and
      reschedules of a client awaiting their write at once, exactly when `n` is at most one. */
  lemma ClientsKeptIff(n: nat)
    ensures (forall schedules, es | FewWritesThroughout(n, Start(schedules), es) :: ClientsKept(schedules, es))
      <==> n <= 1
  {
    if n <= 1 {
      forall schedules, es | FewWritesThroughout(n, Start(schedules), es) ensures ClientsKept(schedules, es) {
        forall k | 0 <= k <= |es| ensures FewWrites(1, Run(Start(schedules), es[..k])) {
          assert FewWrites(n, Run(Start(schedules), es[..k]));
        }
        RunClientsSafe(schedules, es, |es|);
        assert es[..|es|] == es;
      }
    } else {
      TwoConsultantsDoubleBook();
      OneClientTwiceByTwo();
      TwoAtOnce(n, TwoConsultants(), OneClientTwice());
      assert !ClientsKept(TwoConsultants(), OneClientTwice());
    }
  }

  ghost function TwoConsultants(): map<nat, Schedule> {
    map[8 := AllDay(), 9 := AllDay()]
  }

  /** Client 1 books the same hour with two consultants at once. */
  function OneClientTwice(): seq<Event> {
    Checks(0, 0, 1, 9, 0) + Checks(1, 0, 1, 8, 0) + [Insert(0, 0)] + [Insert(1, 1)]
  }

  lemma OneClientTwiceByTwo()
    ensures AllByTwo(OneClientTwice())
  {
    assert AllByTwo(Checks(0, 0, 1, 9, 0)) && AllByTwo(Checks(1, 0, 1, 8, 0));
    ByTwoConcat(Checks(0, 0, 1, 9, 0), Checks(1, 0, 1, 8, 0));
  }

  lemma BothConsultantsChecked()
    ensures var s := Run(Start(TwoConsultants()), Checks(0, 0, 1, 9, 0) + Checks(1, 0, 1, 8, 0));
      && s.db == s.inserted == map[]
      && s.requests == map[0 := Inserting(Ticket(1, 9, 0, 60)), 1 := Inserting(Ticket(1, 8, 0, 60))]
  {
    var s0 := Start(TwoConsultants());
    RunConcat(s0, Checks(0, 0, 1, 9, 0), Checks(1, 0, 1, 8, 0));
    ChecksPass(s0, 0, 0, 1, 9, 0);
    ChecksPass(Run(s0, Checks(0, 0, 1, 9, 0)), 1, 0, 1, 8, 0);
  }

  /** Both checks find the client free, and both creates are stored. */
  lemma TwoConsultantsDoubleBook()
    ensures !ClientsDisjoint(Run(Start(TwoConsultants()), OneClientTwice()).db)
  {
    var s0 := Start(TwoConsultants());
    var es := Checks(0, 0, 1, 9, 0) + Checks(1, 0, 1, 8, 0);
    BothConsultantsChecked();
    RunThen(s0, es, Insert(0, 0));
    RunThen(s0, es + [Insert(0, 0)], Insert(1, 1));
    InsertPasses(Run(s0, es), 0, Ticket(1, 9, 0, 60), 0);
    assert Run(s0, es + [Insert(0, 0)]).db == map[0 := Ticket(1, 9, 0, 60).Booked()];
    InsertPasses(Run(s0, es + [Insert(0, 0)]), 1, Ticket(1, 8, 0, 60), 1);
    var db := Run(s0, OneClientTwice()).db;
    assert db[0] == Ticket(1, 9, 0, 60).Booked() && db[1] == Ticket(1, 8, 0, 60).Booked();
    assert !Apart(db[0], db[1]);
  }
}
