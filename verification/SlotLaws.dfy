/** Laws of slot generation: spacing, filtering by busy time, and composition of windows. */
module SlotLaws {
  import opened Datetime
  import opened Availability
  import opened Slots
  import opened Listing

  // ----- Spacing ------------------------------------------------------------------

  lemma {:induction false} IntervalsOnMember(days: seq<WorkingDay>, weekday: int)
    ensures IntervalsOn(days, weekday) == []
      || exists d | d in days :: d.weekday == weekday && d.intervals == IntervalsOn(days, weekday)
  {
    if days != [] {
      IntervalsOnMember(days[..|days| - 1], weekday);
    }
  }

  lemma SameIntervalSpacing(c: SlotConfig, iv: Interval, m: int, m': int)
    requires Stored(c) && InInterval(c, iv, m) && InInterval(c, iv, m') && m < m'
    ensures m + Step(c) <= m'
  {
    var a, b := m - iv.From(), m' - iv.From();
    MultipleIff(a, Step(c));
    MultipleIff(b, Step(c));
    if b < a + Step(c) {
      MultiplesApart(a / Step(c), b / Step(c), Step(c));
    }
  }

  lemma TwoIntervalsSpacing(c: SlotConfig, ivs: seq<Interval>, iv: Interval, m: int, iv': Interval, m': int)
    requires Stored(c) && IntervalsValid(ivs) && iv in ivs && iv' in ivs && iv != iv'
    requires InInterval(c, iv, m) && InInterval(c, iv', m') && m < m'
    ensures m + c.slotDurationMinutes <= m'
  {
    OverlapCheckIff(ivs);
    var i :| 0 <= i < |ivs| && ivs[i] == iv;
    var j :| 0 <= j < |ivs| && ivs[j] == iv';
    assert Disjoint(ivs[if i < j then i else j], ivs[if i < j then j else i]);
  }

  /** Within a day, two offers are a full slot apart on the wall clock. */
  lemma SameWeekdaySpacing(c: SlotConfig, k: int, m: int, k': int, m': int)
    requires Validated(c) && Offers(c, k, m) && Offers(c, k', m')
    requires Weekday(k, c.timezone) == Weekday(k', c.timezone) && m < m'
    ensures m + c.slotDurationMinutes <= m'
  {
    var ivs := DayIntervals(c, k);
    IntervalsOnMember(c.weeklyHours, Weekday(k, c.timezone));
    var iv :| iv in ivs && InInterval(c, iv, m);
    var iv' :| iv' in ivs && InInterval(c, iv', m');
    if iv == iv' {
      SameIntervalSpacing(c, iv, m, m');
    } else {
      TwoIntervalsSpacing(c, ivs, iv, m, iv', m');
    }
  }

  lemma OfferFitsInDay(c: SlotConfig, k: int, m: int)
    requires Stored(c) && Offers(c, k, m)
    ensures 0 <= m && m + c.slotDurationMinutes < MINUTES_IN_DAY
  {
  }

  /** Two different wall times a validated schedule can hold together. */
  predicate Compatible(z: Zone, d: int, k: int, m: int, k': int, m': int) {
    && 0 <= m && m + d < MINUTES_IN_DAY && 0 <= m' && m' + d < MINUTES_IN_DAY
    && (k != k' || m != m')
    && (Weekday(k, z) == Weekday(k', z) ==> m == m' || m + d <= m' || m' + d <= m)
  }

  /** Wall times that a schedule can hold together resolve to the same instant, or a slot apart. */
  ghost predicate Spaced(z: Zone, d: int) {
    forall k, m, k', m' | Compatible(z, d, k, m, k', m') ::
      var s, s' := z.resolve(k, m * MINUTE), z.resolve(k', m' * MINUTE);
      s == s' || s + d * MINUTE <= s' || s' + d * MINUTE <= s
  }

  lemma NonContractingIsSpaced(z: Zone, d: int)
    requires Coherent(z) && NonContracting(z) && 0 < d
    ensures Spaced(z, d)
  {
    forall k, m, k', m' | Compatible(z, d, k, m, k', m')
      ensures var s, s' := z.resolve(k, m * MINUTE), z.resolve(k', m' * MINUTE);
        s == s' || s + d * MINUTE <= s' || s' + d * MINUTE <= s
    {
      if k * MINUTES_IN_DAY + m <= k' * MINUTES_IN_DAY + m' {
        assert ((k' - k) * MINUTES_IN_DAY + m' - m) >= d;
      } else {
        assert ((k - k') * MINUTES_IN_DAY + m - m') >= d;
      }
    }
  }

  /** Any two offered instants of one validated schedule are a slot apart. */
  lemma GridSpacing(c: SlotConfig, s: int, s': int)
    requires Validated(c) && Spaced(c.timezone, c.slotDurationMinutes)
    requires OnGrid(c, s) && OnGrid(c, s') && s < s'
    ensures AddMinutes(s, c.slotDurationMinutes) <= s'
  {
    var z := c.timezone;
    var k, k' := z.localDate(s), z.localDate(s');
    var m :| 0 <= m < MINUTES_IN_DAY && StartOf(c, k, m) == s && Offers(c, k, m);
    var m' :| 0 <= m' < MINUTES_IN_DAY && StartOf(c, k', m') == s' && Offers(c, k', m');
    OfferFitsInDay(c, k, m);
    OfferFitsInDay(c, k', m');
    if Weekday(k, z) == Weekday(k', z) {
      if m < m' {
        SameWeekdaySpacing(c, k, m, k', m');
      } else if m' < m {
        SameWeekdaySpacing(c, k', m', k, m);
      }
    }
    assert Compatible(z, c.slotDurationMinutes, k, m, k', m');
  }

  ghost predicate GridDisjoint(c: SlotConfig)
    requires WellFormed(c)
  {
    forall s, s' | OnGrid(c, s) && OnGrid(c, s') && s < s' ::
      AddMinutes(s, c.slotDurationMinutes) <= s'
  }

  lemma SpacedIsEnough(c: SlotConfig)
    requires Validated(c) && Spaced(c.timezone, c.slotDurationMinutes)
    ensures GridDisjoint(c)
  {
    forall s, s' | OnGrid(c, s) && OnGrid(c, s') && s < s'
      ensures AddMinutes(s, c.slotDurationMinutes) <= s'
    {
      GridSpacing(c, s, s');
    }
  }

  lemma SlotOnGrid(c: SlotConfig, o: Options, i: int)
    requires Stored(c) && 0 <= i < |SlotsOf(c, o)|
    ensures var x := SlotsOf(c, o)[i]; x == SpanAt(c, x.startAt) && OnGrid(c, x.startAt)
  {
    var x := SlotsOf(c, o)[i];
    assert x in SlotsOf(c, o);
    SlotIff(c, o, x);
  }

  /** In a non-contracting zone a validated schedule's grid leaves room for every slot. */
  lemma NonContractingGridDisjoint(c: SlotConfig)
    requires Validated(c) && NonContracting(c.timezone)
    ensures GridDisjoint(c)
  {
    NonContractingIsSpaced(c.timezone, c.slotDurationMinutes);
    SpacedIsEnough(c);
  }

  lemma SlotsNeverOverlap(c: SlotConfig, o: Options, i: int, j: int)
    requires Stored(c) && GridDisjoint(c) && 0 <= i < j < |SlotsOf(c, o)|
    ensures SlotsOf(c, o)[i].endAt <= SlotsOf(c, o)[j].startAt
  {
    SlotOnGrid(c, o, i);
    SlotOnGrid(c, o, j);
    SlotsAscend(c, o, i, j);
  }

  // ----- Exactly the zones in which slots never overlap ------------------------------

  function WorkedInterval(m: int, d: int): (iv: Interval)
    requires 0 <= m && 0 < d && m + d < MINUTES_IN_DAY
    ensures iv.From() == m && iv.To() == m + d
  {
    MinutesRoundTrip(m);
    MinutesRoundTrip(m + d);
    Interval(MinutesToTime(m), MinutesToTime(m + d))
  }

  /** The working hours whose only slots are at minute `m` of day `k`'s weekday and at minute
      `m'` of day `k'`'s. */
  function TwoSlotHours(z: Zone, d: int, k: int, m: int, k': int, m': int): seq<WorkingDay>
    requires 0 < d && Compatible(z, d, k, m, k', m')
  {
    var w, w' := Weekday(k, z), Weekday(k', z);
    var iv, iv' := WorkedInterval(m, d), WorkedInterval(m', d);
    if w != w' then [WorkingDay(w, [iv]), WorkingDay(w', [iv'])]
    else if m == m' then [WorkingDay(w, [iv])]
    else [WorkingDay(w, [iv, iv'])]
  }

  function TwoSlotConfig(z: Zone, d: int, k: int, m: int, k': int, m': int): SlotConfig
    requires 0 < d && Compatible(z, d, k, m, k', m')
  {
    SlotConfig(z, d, 0, 0, MAX_ADVANCE_DAYS_MAX, TwoSlotHours(z, d, k, m, k', m'), [])
  }

  lemma SingletonValid(iv: Interval)
    requires iv.From() < iv.To()
    ensures IntervalsValid([iv])
  {
    OverlapCheckIff([iv]);
  }

  lemma PairValid(iv: Interval, iv': Interval)
    requires iv.From() < iv.To() && iv'.From() < iv'.To()
    requires iv.To() <= iv'.From() || iv'.To() <= iv.From()
    ensures IntervalsValid([iv, iv'])
  {
    assert Disjoint(iv, iv');
    assert PositiveLengths([iv, iv']) && PairwiseDisjoint([iv, iv']);
    OverlapCheckIff([iv, iv']);
  }

  lemma TwoSlotHoursValid(z: Zone, d: int, k: int, m: int, k': int, m': int)
    requires 0 < d && Compatible(z, d, k, m, k', m')
    ensures forall day | day in TwoSlotHours(z, d, k, m, k', m') :: IntervalsValid(day.intervals)
  {
    var iv, iv' := WorkedInterval(m, d), WorkedInterval(m', d);
    SingletonValid(iv);
    SingletonValid(iv');
    if Weekday(k, z) == Weekday(k', z) && m != m' {
      PairValid(iv, iv');
    }
  }

  lemma TwoSlotHoursHold(z: Zone, d: int, k: int, m: int, k': int, m': int)
    requires 0 < d && Compatible(z, d, k, m, k', m')
    ensures var days := TwoSlotHours(z, d, k, m, k', m');
      && WorkedInterval(m, d) in IntervalsOn(days, Weekday(k, z))
      && WorkedInterval(m', d) in IntervalsOn(days, Weekday(k', z))
  {
    var days := TwoSlotHours(z, d, k, m, k', m');
    if |days| == 2 {
      assert days[..1] == [days[0]];
    }
  }

  lemma TwoSlotConfigValidated(z: Zone, d: int, k: int, m: int, k': int, m': int)
    requires Coherent(z) && z.valid && d in SLOT_DURATIONS && Compatible(z, d, k, m, k', m')
    ensures Validated(TwoSlotConfig(z, d, k, m, k', m'))
  {
    TwoSlotHoursValid(z, d, k, m, k', m');
  }

  lemma TwoSlotConfigOffers(z: Zone, d: int, k: int, m: int, k': int, m': int)
    requires Coherent(z) && z.valid && d in SLOT_DURATIONS && Compatible(z, d, k, m, k', m')
    ensures var c := TwoSlotConfig(z, d, k, m, k', m');
      Validated(c) && Offers(c, k, m) && Offers(c, k', m')
  {
    var c := TwoSlotConfig(z, d, k, m, k', m');
    TwoSlotConfigValidated(z, d, k, m, k', m');
    TwoSlotHoursHold(z, d, k, m, k', m');
    assert InInterval(c, WorkedInterval(m, d), m);
    assert InInterval(c, WorkedInterval(m', d), m');
  }

  predicate TooClose(z: Zone, d: int, k: int, m: int, k': int, m': int) {
    var s, s' := z.resolve(k, m * MINUTE), z.resolve(k', m' * MINUTE);
    s != s' && s' < s + d * MINUTE && s < s' + d * MINUTE
  }

  lemma OfferOnGrid(c: SlotConfig, k: int, m: int)
    requires Stored(c) && c.timezone.valid && Offers(c, k, m)
    ensures OnGrid(c, StartOf(c, k, m))
  {
    OfferFitsInDay(c, k, m);
    assert c.timezone.localDate(StartOf(c, k, m)) == k;
  }

  /** Two offers that come too close overlap. */
  lemma CloseOffersOverlap(c: SlotConfig, k: int, m: int, k': int, m': int)
    requires Stored(c) && c.timezone.valid && Offers(c, k, m) && Offers(c, k', m')
    requires TooClose(c.timezone, c.slotDurationMinutes, k, m, k', m')
    ensures !GridDisjoint(c)
  {
    OfferOnGrid(c, k, m);
    OfferOnGrid(c, k', m');
  }

  /** Offered slots are disjoint under every validated schedule of a slot length exactly when
      the zone keeps compatible wall times apart. */
  lemma DisjointIffSpaced(z: Zone, d: int)
    requires Coherent(z) && z.valid && d in SLOT_DURATIONS
    ensures (forall c | Validated(c) && c.timezone == z && c.slotDurationMinutes == d :: GridDisjoint(c))
      <==> Spaced(z, d)
  {
    forall c | Spaced(z, d) && Validated(c) && c.timezone == z && c.slotDurationMinutes == d
      ensures GridDisjoint(c)
    {
      SpacedIsEnough(c);
    }
    if !Spaced(z, d) {
      var k, m, k', m' :| Compatible(z, d, k, m, k', m') && TooClose(z, d, k, m, k', m');
      TwoSlotConfigOffers(z, d, k, m, k', m');
      CloseOffersOverlap(TwoSlotConfig(z, d, k, m, k', m'), k, m, k', m');
    }
  }

  /** Across a spring-forward gap 45-minute slots overlap. */
  lemma SpringForwardOverlaps()
    ensures !Spaced(SpringForward(2 * HOUR), 45)
  {
    var z := SpringForward(2 * HOUR);
    SpringForwardIsCoherent(2 * HOUR);
    assert z.resolve(1, 150 * MINUTE) == DAY + 150 * MINUTE;
    assert z.resolve(1, 195 * MINUTE) == DAY + 135 * MINUTE;
    assert Compatible(z, 45, 1, 150, 1, 195);
  }
}
