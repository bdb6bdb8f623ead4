/** The protocol run on real schedules: slot generation supplies the spacing that the slot key
    alone does not. */
module CalendarSafety {
  import opened Datetime
  import opened Availability
  import opened Bookings
  import opened Slots
  import opened Listing
  import opened SlotLaws
  import opened Marks
  import opened BookingProtocol
  import opened DoubleBooking
  import opened Races

  ghost function ScheduleFor(c: SlotConfig): Schedule
    requires WellFormed(c)
  {
    Schedule(c.slotDurationMinutes, c.minNoticeMinutes, c.maxAdvanceDays, iset s | OnGrid(c, s))
  }

  /** A validated schedule in a non-contracting zone, or one on marks that its zone keeps. */
  ghost predicate Regular(c: SlotConfig) {
    || (Validated(c) && NonContracting(c.timezone))
    || (exists g :: OnMarks(c, g) && KeepsMarks(c.timezone, g))
  }

  ghost predicate AllRegular(configs: map<nat, SlotConfig>) {
    AllWellFormed(configs) && forall hr | hr in configs :: Regular(configs[hr])
  }

  lemma RegularGridDisjoint(c: SlotConfig)
    requires WellFormed(c) && Regular(c)
    ensures GridDisjoint(c)
  {
    if Validated(c) && NonContracting(c.timezone) {
      NonContractingGridDisjoint(c);
    } else {
      var g :| OnMarks(c, g) && KeepsMarks(c.timezone, g);
      MarksGridDisjoint(c, g);
    }
  }

  ghost function SchedulesFor(configs: map<nat, SlotConfig>): map<nat, Schedule>
    requires AllWellFormed(configs)
  {
    map hr | hr in configs :: ScheduleFor(configs[hr])
  }

  /** The protocol's gate is the slot gate. */
  lemma GateIsOfferedSlot(c: SlotConfig, now: int, s: int)
    requires WellFormed(c)
    ensures Accepts(ScheduleFor(c), now, s) <==> GateOpen(c, now, s)
  {
  }

  lemma SpacedStartsIff(c: SlotConfig)
    requires WellFormed(c)
    ensures SpacedStarts(ScheduleFor(c)) <==> GridDisjoint(c)
  {
    var sched := ScheduleFor(c);
    assert forall s :: s in sched.starts <==> OnGrid(c, s);
  }

  /** With one regular schedule per consultant, no interleaving of creates, reschedules,
      cancellations and completions ever double-books a consultant. */
  lemma NeverDoubleBooked(configs: map<nat, SlotConfig>, es: seq<Event>)
    requires AllRegular(configs)
    requires ScheduleFixed(es)
    ensures ConsultantsDisjoint(Run(Start(SchedulesFor(configs)), es).db)
  {
    forall hr | hr in configs ensures SpacedStarts(SchedulesFor(configs)[hr]) {
      RegularGridDisjoint(configs[hr]);
      SpacedStartsIff(configs[hr]);
    }
    NoOverlapUnderFixedSchedules(SchedulesFor(configs), es);
  }

  /** No interleaving double-books the one consultant working to schedule `c`. */
  ghost predicate SafeSchedule(hr: nat, c: SlotConfig)
    requires WellFormed(c)
  {
    forall es | ScheduleFixed(es) ::
      ConsultantsDisjoint(Run(Start(map[hr := ScheduleFor(c)]), es).db)
  }

  /** A single schedule is safe exactly when its slots are disjoint or it takes no booking at all. */
  lemma SafeScheduleIff(hr: nat, c: SlotConfig)
    requires WellFormed(c)
    ensures SafeSchedule(hr, c) <==> GridDisjoint(c) || Closed(ScheduleFor(c))
  {
    SpacedStartsIff(c);
    NoOverlapIffSpaced(hr, ScheduleFor(c));
  }

  /** A schedule on marks that divide the hour is safe across a one-hour gap: half-hour slots on the
      half hour, or 45-minute ones with a quarter's buffer on the hour. */
  lemma SpringForwardMarksSafe(hr: nat, gap: int, c: SlotConfig, g: int)
    requires WellFormed(c) && c.timezone == SpringForward(gap)
    requires OnMarks(c, g) && 60 % g == 0
    ensures SafeSchedule(hr, c)
  {
    SpringForwardKeepsMarks(gap, g);
    MarksGridDisjoint(c, g);
    SafeScheduleIff(hr, c);
  }

  /** Every validated schedule of a slot length is safe in every interleaving exactly when the
      zone keeps compatible wall times a slot apart. */
  lemma SafeIffSpaced(hr: nat, z: Zone, d: int)
    requires Coherent(z) && z.valid && d in SLOT_DURATIONS
    ensures (forall c | Validated(c) && c.timezone == z && c.slotDurationMinutes == d :: SafeSchedule(hr, c))
      <==> Spaced(z, d)
  {
    if Spaced(z, d) {
      forall c | Validated(c) && c.timezone == z && c.slotDurationMinutes == d
        ensures SafeSchedule(hr, c)
      {
        SpacedIsEnough(c);
        SafeScheduleIff(hr, c);
      }
    } else {
      var k, m, k', m' :| Compatible(z, d, k, m, k', m') && TooClose(z, d, k, m, k', m');
      UnsafeSchedule(hr, z, d, k, m, k', m');
    }
  }

  lemma UnsafeSchedule(hr: nat, z: Zone, d: int, k: int, m: int, k': int, m': int)
    requires Coherent(z) && z.valid && d in SLOT_DURATIONS
    requires Compatible(z, d, k, m, k', m') && TooClose(z, d, k, m, k', m')
    ensures var c := TwoSlotConfig(z, d, k, m, k', m');
      Validated(c) && !SafeSchedule(hr, c)
  {
    var c := TwoSlotConfig(z, d, k, m, k', m');
    TwoSlotConfigOffers(z, d, k, m, k', m');
    CloseOffersOverlap(c, k, m, k', m');
    SafeScheduleIff(hr, c);
  }

  /** 45-minute slots at 02:30 and 03:15 in a zone that skips from 02:00 to 03:00: their starts are
      a quarter of an hour apart on that day, and two clients get both. */
  lemma SpringForwardDoubleBooks(hr: nat)
    ensures Compatible(SpringForward(2 * HOUR), 45, 1, 150, 1, 195)
    ensures var c := TwoSlotConfig(SpringForward(2 * HOUR), 45, 1, 150, 1, 195);
      Validated(c) && !SafeSchedule(hr, c)
  {
    var z := SpringForward(2 * HOUR);
    SpringForwardIsCoherent(2 * HOUR);
    assert z.resolve(1, 150 * MINUTE) == DAY + 150 * MINUTE;
    assert z.resolve(1, 195 * MINUTE) == DAY + 135 * MINUTE;
    UnsafeSchedule(hr, z, 45, 1, 150, 1, 195);
  }
}
