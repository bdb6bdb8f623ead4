/** What the overlap sweep achieves whichever match its query returns, and exactly the
    interleavings in which settled bookings stay disjoint (src/services/booking.service.ts). */
module Sweeps {
  import opened Wrappers
  import opened Bookings
  import opened BookingProtocol
  import opened DoubleBooking

  predicate Deciding(s: State, r: nat) {
    r in s.requests && s.requests[r].Sweeping?
  }

  /** `j` is a match for the sweep of request `r`. */
  predicate Match(s: State, r: nat, j: nat)
    requires Deciding(s, r)
  {
    var t, id := s.requests[r].t, s.requests[r].id;
    Conflicts(s.db, Consultant(t.hrUserId), t.startAt, t.EndAt(), Some(id), j)
  }

  predicate Answers(s: State, r: nat, found: Option<nat>)
    requires Deciding(s, r)
  {
    PossibleAnswer(s, s.requests[r].t, s.requests[r].id, found)
  }

  predicate LowerMatch(s: State, r: nat)
    requires Deciding(s, r)
  {
    exists j | j in s.db :: j < s.requests[r].id && Match(s, r, j)
  }

  predicate HigherMatch(s: State, r: nat)
    requires Deciding(s, r)
  {
    exists j | j in s.db :: s.requests[r].id < j && Match(s, r, j)
  }

  /** Whatever the query returns, the create stands down. */
  ghost predicate SureToStandDown(s: State, r: nat)
    requires Deciding(s, r)
  {
    forall found | Answers(s, r, found) :: StandsDown(SweepStep(s, r, found), r)
  }

  lemma SomeAnswer(s: State, r: nat) returns (found: Option<nat>)
    requires Deciding(s, r)
    ensures Answers(s, r, found)
    ensures HigherMatch(s, r) ==> found.Some? && s.requests[r].id < found.value
    ensures found.None? ==> !LowerMatch(s, r)
  {
    if HigherMatch(s, r) {
      var j :| j in s.db && s.requests[r].id < j && Match(s, r, j);
      found := Some(j);
    } else if j :| j in s.db && Match(s, r, j) {
      found := Some(j);
    } else {
      found := None;
    }
  }

  /** A create is sure to stand down exactly when some match has a smaller id and none a greater. */
  lemma SureToStandDownIff(s: State, r: nat)
    requires Deciding(s, r)
    ensures SureToStandDown(s, r) <==> LowerMatch(s, r) && !HigherMatch(s, r)
  {
    if SureToStandDown(s, r) {
      var found := SomeAnswer(s, r);
      assert StandsDown(SweepStep(s, r, found), r);
      assert Match(s, r, found.value);
    }
    if LowerMatch(s, r) && !HigherMatch(s, r) {
      forall found | Answers(s, r, found) ensures StandsDown(SweepStep(s, r, found), r) {
        var j :| j in s.db && j < s.requests[r].id && Match(s, r, j);
        assert found.Some? && Match(s, r, found.value);
      }
    }
  }

  /** The documented promise, to stand down before a smaller id, is kept for sure exactly when
      there are not matches on both sides. */
  lemma PromiseKeptIff(s: State, r: nat)
    requires Deciding(s, r)
    ensures (LowerMatch(s, r) ==> SureToStandDown(s, r)) <==> !(LowerMatch(s, r) && HigherMatch(s, r))
  {
    SureToStandDownIff(s, r);
  }

  // ----- One sweep -----------------------------------------------------------------------------

  /** Some other settled booking overlaps `b`. */
  predicate OntoSettled(s: State, id: nat, b: Booking) {
    exists j | j in s.settled :: j != id && ActiveIn(s, j) && Rivals(s.db[j], b)
  }

  /** The booking lies on a settled one and may be let stay: no match has a smaller id, or one
      has a greater. */
  predicate Exposed(s: State, r: nat)
    requires Deciding(s, r)
  {
    var id := s.requests[r].id;
    && ActiveIn(s, id) && OntoSettled(s, id, s.db[id])
    && (LowerMatch(s, r) ==> HigherMatch(s, r))
  }

  lemma StayingIsSafeIff(s: State, r: nat, found: Option<nat>)
    requires SettledDisjoint(s) && Deciding(s, r) && Answers(s, r, found)
    requires found.Some? ==> s.requests[r].id <= found.value
    ensures var id := s.requests[r].id;
      SettledDisjoint(SweepStep(s, r, found)) <==> !(ActiveIn(s, id) && OntoSettled(s, id, s.db[id]))
  {
    var id, s' := s.requests[r].id, SweepStep(s, r, found);
    if ActiveIn(s, id) && OntoSettled(s, id, s.db[id]) {
      var j :| j in s.settled && j != id && ActiveIn(s, j) && Rivals(s.db[j], s.db[id]);
      assert j in s'.settled && id in s'.settled && ActiveIn(s', j) && ActiveIn(s', id);
    }
  }

  ghost predicate SureToStayDisjoint(s: State, r: nat)
    requires Deciding(s, r)
  {
    forall found | Answers(s, r, found) :: SettledDisjoint(SweepStep(s, r, found))
  }

  /** A sweep keeps settled bookings disjoint whatever its query returns, exactly when its booking
      is not exposed. */
  lemma SweepSafeIff(s: State, r: nat)
    requires SettledDisjoint(s) && Deciding(s, r)
    ensures SureToStayDisjoint(s, r) <==> !Exposed(s, r)
  {
    var id := s.requests[r].id;
    SureToStandDownIff(s, r);
    if Exposed(s, r) {
      var found := SomeAnswer(s, r);
      if found.Some? {
        assert Match(s, r, found.value);
      }
      StayingIsSafeIff(s, r, found);
    } else {
      forall found | Answers(s, r, found) ensures SettledDisjoint(SweepStep(s, r, found)) {
        if found.None? || id <= found.value {
          StayingIsSafeIff(s, r, found);
          assert LowerMatch(s, r) ==> found.Some? && Match(s, r, found.value);
        }
      }
    }
  }

  /** For a booking as it was inserted: exposed exactly with a settled match and a match with a
      greater id. */
  lemma ExposedIff(s: State, r: nat)
    requires Deciding(s, r) && s.requests[r].id in s.db
    requires s.db[s.requests[r].id] == s.requests[r].t.Booked()
    ensures Exposed(s, r) <==> (exists j | j in s.settled :: Match(s, r, j)) && HigherMatch(s, r)
  {
    var id, b := s.requests[r].id, s.requests[r].t.Booked();
    forall j | j in s.db ensures Match(s, r, j) <==> j != id && ActiveIn(s, j) && Rivals(s.db[j], b) {
    }
    if j :| j in s.settled && Match(s, r, j) {
      assert j in s.db;
      assert j < id ==> LowerMatch(s, r);
      assert id < j ==> HigherMatch(s, r);
      assert OntoSettled(s, id, b);
    }
    if Exposed(s, r) {
      var j :| j in s.settled && j != id && ActiveIn(s, j) && Rivals(s.db[j], b);
      assert Match(s, r, j);
      assert j < id ==> LowerMatch(s, r);
      assert id < j ==> HigherMatch(s, r);
    }
  }

  // ----- One update ------------------------------------------------------------------------------

  /** The conditional update finds its booking active and its key free. */
  predicate Moves(s: State, r: nat) {
    && r in s.requests && s.requests[r].Moving? && ActiveIn(s, s.requests[r].id)
    && !KeyTaken(s.db, SlotKey(s.requests[r].was.hrUserId, s.requests[r].startAt), Some(s.requests[r].id))
  }

  /** A settled booking is moved onto another: a reschedule has no sweep. */
  predicate MovesOntoSettled(s: State, r: nat) {
    && Moves(s, r) && s.requests[r].id in s.settled
    && var q := s.requests[r];
       OntoSettled(s, q.id, MoveFields(s.db[q.id], q.was, q.startAt, q.durationMinutes))
  }

  lemma MoveSafeIff(s: State, r: nat)
    requires SettledDisjoint(s)
    ensures SettledDisjoint(MoveStep(s, r)) <==> !MovesOntoSettled(s, r)
  {
    var s' := MoveStep(s, r);
    if Moves(s, r) && s.requests[r].id in s.settled {
      var id := s.requests[r].id;
      assert forall j | j != id :: ActiveIn(s', j) <==> ActiveIn(s, j);
      if SettledDisjoint(s') {
        forall j | j in s.settled && j != id && ActiveIn(s, j) ensures !Rivals(s.db[j], s'.db[id]) {
          assert ActiveIn(s', j) && ActiveIn(s', id);
        }
      }
    }
  }

  // ----- Every other step ------------------------------------------------------------------------

  lemma InsertSettledDisjoint(s: State, r: nat, id: nat)
    requires SettledDisjoint(s) && s.settled <= s.inserted.Keys
    ensures SettledDisjoint(InsertStep(s, r, id))
  {
    var s' := InsertStep(s, r, id);
    forall j | j in s.settled && ActiveIn(s', j) ensures ActiveIn(s, j) && s'.db[j] == s.db[j] {
    }
  }

  lemma ReleaseSettledDisjoint(s: State, r: nat, id: nat, now: int)
    requires SettledDisjoint(s)
    ensures SettledDisjoint(StandDownStep(s, r))
    ensures SettledDisjoint(SaveCancelStep(s, r)) && SettledDisjoint(CompleteStep(s, id, now))
  {
  }

  lemma ChecksSettledDisjoint(s: State, r: nat)
    requires SettledDisjoint(s)
    ensures SettledDisjoint(ClientCheckStep(s, r)) && SettledDisjoint(ConsultantCheckStep(s, r))
  {
  }

  // ----- Whole runs --------------------------------------------------------------------------------

  /** The two steps that can break the settled bookings' disjointness, and when. */
  predicate Hazard(s: State, e: Event) {
    match e
    case Sweep(r, _) => Deciding(s, r) && Exposed(s, r)
    case Move(r) => MovesOntoSettled(s, r)
    case _ => false
  }

  lemma NoHazardNoOverlap(s: State, e: Event)
    requires SettledDisjoint(s) && s.settled <= s.inserted.Keys && !Hazard(s, e)
    ensures SettledDisjoint(Step(s, e))
  {
    match e
    case Sweep(r, found) => if Deciding(s, r) && Answers(s, r, found) { SweepSafeIff(s, r); }
    case Move(r) => MoveSafeIff(s, r);
    case Insert(r, id) => InsertSettledDisjoint(s, r, id);
    case StandDown(r) => ReleaseSettledDisjoint(s, r, 0, 0);
    case SaveCancel(r) => ReleaseSettledDisjoint(s, r, 0, 0);
    case Complete(id, now) => ReleaseSettledDisjoint(s, 0, id, now);
    case ClientCheck(r) => ChecksSettledDisjoint(s, r);
    case ConsultantCheck(r) => ChecksSettledDisjoint(s, r);
    case _ =>
  }

  /** A hazard does its harm under some answer its query can return. */
  lemma HazardHarms(s: State, e: Event) returns (e': Event)
    requires SettledDisjoint(s) && Hazard(s, e)
    ensures SameButAnswer(e, e') && PossibleEvent(s, e') && !SettledDisjoint(Step(s, e'))
  {
    if e.Sweep? {
      SweepSafeIff(s, e.r);
      var found :| Answers(s, e.r, found) && !SettledDisjoint(SweepStep(s, e.r, found));
      e' := Sweep(e.r, found);
    } else {
      MoveSafeIff(s, e.r);
      e' := e;
    }
  }

  predicate SameButAnswer(e: Event, e': Event) {
    e == e' || (e.Sweep? && e'.Sweep? && e.r == e'.r)
  }

  /** The sweep carries an answer that its query can return. */
  predicate PossibleEvent(s: State, e: Event) {
    e.Sweep? && Deciding(s, e.r) ==> Answers(s, e.r, e.found)
  }

  ghost predicate Possible(s: State, es: seq<Event>)
    decreases |es|
  {
    es == [] || (PossibleEvent(s, es[0]) && Possible(Step(s, es[0]), es[1..]))
  }

  lemma {:induction false} PossibleConcat(s: State, es: seq<Event>, fs: seq<Event>)
    ensures Possible(s, es + fs) <==> Possible(s, es) && Possible(Run(s, es), fs)
    decreases |es|
  {
    if es == [] {
      assert es + fs == fs;
    } else {
      assert (es + fs)[1..] == es[1..] + fs;
      PossibleConcat(Step(s, es[0]), es[1..], fs);
    }
  }

  /** Every interleaving can be answered, from any state. */
  lemma {:induction false} AnswerAll(s: State, es: seq<Event>) returns (fs: seq<Event>)
    ensures SameButAnswers(es, fs) && Possible(s, fs)
    decreases |es|
  {
    if es == [] {
      fs := [];
    } else {
      var e := es[0];
      if e.Sweep? && Deciding(s, e.r) {
        var found := SomeAnswer(s, e.r);
        e := Sweep(e.r, found);
      }
      var rest := AnswerAll(Step(s, e), es[1..]);
      fs := [e] + rest;
      assert fs[1..] == rest;
      assert forall i | 0 < i < |es| :: es[i] == es[1..][i - 1];
    }
  }

  /** The same interleaving, whatever the sweeps' queries return. */
  predicate SameButAnswers(es: seq<Event>, fs: seq<Event>) {
    |es| == |fs| && forall i | 0 <= i < |es| :: SameButAnswer(es[i], fs[i])
  }

  ghost predicate DisjointAt(s0: State, es: seq<Event>, k: nat)
    requires k <= |es|
  {
    SettledDisjoint(Run(s0, es[..k]))
  }

  ghost predicate HazardAt(s0: State, es: seq<Event>, k: nat)
    requires k < |es|
  {
    Hazard(Run(s0, es[..k]), es[k])
  }

  lemma {:induction false} NoHazardSoFar(schedules: map<nat, Schedule>, es: seq<Event>, k: nat)
    requires k <= |es| && forall i | 0 <= i < k :: !HazardAt(Start(schedules), es, i)
    ensures DisjointAt(Start(schedules), es, k)
    ensures var s := Run(Start(schedules), es[..k]); s.settled <= s.inserted.Keys
  {
    if 0 < k {
      var s0 := Start(schedules);
      NoHazardSoFar(schedules, es, k - 1);
      var s := Run(s0, es[..k - 1]);
      RunSound(s0, es[..k - 1]);
      RunUpTo(s0, es, k - 1);
      assert !HazardAt(s0, es, k - 1);
      NoHazardNoOverlap(s, es[k - 1]);
      StepSettledInserted(s, es[k - 1]);
    }
  }

  /** A hazard breaks the interleaving for some possible answers of the sweeps. */
  lemma HazardBreaks(s0: State, fs: seq<Event>, k: nat) returns (gs: seq<Event>)
    requires k < |fs| && Possible(s0, fs) && HazardAt(s0, fs, k) && DisjointAt(s0, fs, k)
    ensures SameButAnswers(fs, gs) && Possible(s0, gs) && !DisjointAt(s0, gs, k + 1)
  {
    var s := Run(s0, fs[..k]);
    var e' := HazardHarms(s, fs[k]);
    var rest := AnswerAll(Step(s, e'), fs[k + 1..]);
    assert fs == fs[..k] + fs[k..];
    PossibleConcat(s0, fs[..k], fs[k..]);
    assert ([e'] + rest)[1..] == rest;
    PossibleConcat(s0, fs[..k], [e'] + rest);
    gs := fs[..k] + ([e'] + rest);
    assert gs[..k] == fs[..k] && gs[k] == e';
    forall i | 0 <= i < |fs| ensures SameButAnswer(fs[i], gs[i]) {
      assert k < i ==> fs[i] == fs[k + 1..][i - k - 1] && gs[i] == rest[i - k - 1];
    }
    RunUpTo(s0, gs, k);
  }

  ghost predicate AlwaysDisjoint(s0: State, es: seq<Event>) {
    forall k | 0 <= k <= |es| :: DisjointAt(s0, es, k)
  }

  ghost predicate NeverHazardous(s0: State, es: seq<Event>) {
    forall k | 0 <= k < |es| :: !HazardAt(s0, es, k)
  }

  /** The interleaving `es` with other answers of the sweeps, each of them possible. */
  ghost predicate Answered(s0: State, es: seq<Event>, fs: seq<Event>) {
    SameButAnswers(es, fs) && Possible(s0, fs)
  }

  /** An interleaving, reschedules and schedule changes included, keeps settled bookings disjoint
      throughout and whatever its sweeps' queries return, exactly when under no such answers an
      exposed booking is swept or a settled booking moved onto another. */
  lemma SettledAlwaysDisjointIff(schedules: map<nat, Schedule>, es: seq<Event>)
    ensures (forall fs | Answered(Start(schedules), es, fs) :: AlwaysDisjoint(Start(schedules), fs))
      <==> (forall fs | Answered(Start(schedules), es, fs) :: NeverHazardous(Start(schedules), fs))
  {
    var s0 := Start(schedules);
    if fs :| Answered(s0, es, fs) && !NeverHazardous(s0, fs) {
      var k :| 0 <= k < |fs| && HazardAt(s0, fs, k);
      if DisjointAt(s0, fs, k) {
        var gs := HazardBreaks(s0, fs, k);
        assert Answered(s0, es, gs) && !AlwaysDisjoint(s0, gs);
      } else {
        assert !AlwaysDisjoint(s0, fs);
      }
    }
    if fs :| Answered(s0, es, fs) && !AlwaysDisjoint(s0, fs) {
      var k :| 0 <= k <= |fs| && !DisjointAt(s0, fs, k);
      if NeverHazardous(s0, fs) {
        NoHazardSoFar(schedules, fs, k);
      }
    }
  }
}
