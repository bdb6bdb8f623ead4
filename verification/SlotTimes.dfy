/** What is offered, in the terms of the stored schedule: hours, minutes, dates and instants, with
    none of the generator's own notions (src/services/slot.service.ts). */
module SlotTimes {
  import opened Wrappers
  import opened Datetime
  import opened Availability
  import opened Slots
  import opened Listing

  /** Entry `i` is the last one for a weekday. */
  predicate Governs(days: seq<WorkingDay>, i: int, weekday: int) {
    && 0 <= i < |days| && days[i].weekday == weekday
    && forall j | i < j < |days| :: days[j].weekday != weekday
  }

  /** Minute `m` is `n` slots with their buffers into the interval, and a slot still fits. */
  predicate Fits(c: SlotConfig, iv: Interval, m: int, n: int) {
    && 0 <= n
    && m == TimeToMinutes(iv.start) + n * (c.slotDurationMinutes + c.bufferMinutes)
    && m + c.slotDurationMinutes <= TimeToMinutes(iv.end)
  }

  /** Day 0 was a Thursday. */
  ghost predicate Worked(c: SlotConfig, k: int, m: int) {
    exists i, iv, n ::
      Governs(c.weeklyHours, i, (k + 4) % 7) && iv in c.weeklyHours[i].intervals && Fits(c, iv, m, n)
  }

  /** No block of the day lacks a time, and the slot is over before or begins after each of them. */
  predicate OutsideBlocks(c: SlotConfig, k: int, m: int) {
    forall b | b in c.blockedDates && b.date == k ::
      && b.startTime.Some? && b.endTime.Some?
      && (m + c.slotDurationMinutes <= TimeToMinutes(b.startTime.value) || TimeToMinutes(b.endTime.value) <= m)
  }

  lemma {:induction false} IntervalsOnIff(days: seq<WorkingDay>, weekday: int, iv: Interval)
    ensures iv in IntervalsOn(days, weekday)
      <==> exists i :: Governs(days, i, weekday) && iv in days[i].intervals
  {
    if days != [] {
      var front, last := days[..|days| - 1], days[|days| - 1];
      IntervalsOnIff(front, weekday, iv);
      if last.weekday == weekday {
        assert Governs(days, |days| - 1, weekday);
      } else {
        forall i ensures Governs(days, i, weekday) <==> Governs(front, i, weekday) {
        }
      }
    }
  }

  lemma {:induction false} BlocksOnIff(blocked: seq<BlockedDate>, day: int, b: BlockedDate)
    ensures b in BlocksOn(blocked, day) <==> b in blocked && b.date == day
  {
    if blocked != [] {
      BlocksOnIff(blocked[..|blocked| - 1], day, b);
      assert blocked == blocked[..|blocked| - 1] + [blocked[|blocked| - 1]];
    }
  }

  lemma InIntervalIff(c: SlotConfig, iv: Interval, m: int)
    requires WellFormed(c)
    ensures InInterval(c, iv, m) <==> exists n :: Fits(c, iv, m, n)
  {
    var step := c.slotDurationMinutes + c.bufferMinutes;
    MultipleIff(m - iv.From(), step);
    if InInterval(c, iv, m) {
      assert Fits(c, iv, m, (m - iv.From()) / step);
    }
    if n :| Fits(c, iv, m, n) {
      assert m - iv.From() == n * step;
      NotBehind(n, step);
    }
  }

  lemma {:induction false} NotBehind(n: int, step: int)
    requires 0 <= n && 0 < step
    ensures 0 <= n * step
  {
    if 0 < n {
      NotBehind(n - 1, step);
      assert n * step == (n - 1) * step + step;
    }
  }

  lemma UnblockedIff(c: SlotConfig, k: int, m: int)
    ensures Unblocked(c, k, m) <==> OutsideBlocks(c, k, m)
  {
    forall b ensures b in BlocksOn(c.blockedDates, k) <==> b in c.blockedDates && b.date == k {
      BlocksOnIff(c.blockedDates, k, b);
    }
  }

  lemma WorkedIff(c: SlotConfig, k: int, m: int)
    requires Stored(c)
    ensures (exists iv | iv in DayIntervals(c, k) :: InInterval(c, iv, m)) <==> Worked(c, k, m)
  {
    WeekdayOf(k, c.timezone);
    var w := (k + 4) % 7;
    if iv :| iv in DayIntervals(c, k) && InInterval(c, iv, m) {
      IntervalsOnIff(c.weeklyHours, w, iv);
      InIntervalIff(c, iv, m);
      var i :| Governs(c.weeklyHours, i, w) && iv in c.weeklyHours[i].intervals;
      var n :| Fits(c, iv, m, n);
    }
    if i, iv, n :| Governs(c.weeklyHours, i, w) && iv in c.weeklyHours[i].intervals && Fits(c, iv, m, n) {
      IntervalsOnIff(c.weeklyHours, w, iv);
      InIntervalIff(c, iv, m);
    }
  }

  /** A slot is offered exactly at the minutes the hours, the step and the blocks leave. */
  lemma OffersIff(c: SlotConfig, k: int, m: int)
    requires Stored(c)
    ensures Offers(c, k, m) <==> Worked(c, k, m) && OutsideBlocks(c, k, m)
  {
    WorkedIff(c, k, m);
    UnblockedIff(c, k, m);
  }

  /** The instant is minute `m` of day `k`, and offered. */
  ghost predicate OfferedAt(c: SlotConfig, k: int, m: int, s: int) {
    0 <= m < 1440 && c.timezone.resolve(k, m * 60_000) == s && Worked(c, k, m) && OutsideBlocks(c, k, m)
  }

  lemma OnGridIff(c: SlotConfig, s: int)
    requires Stored(c)
    ensures OnGrid(c, s) <==> c.timezone.valid && exists k, m :: OfferedAt(c, k, m, s)
  {
    if OnGrid(c, s) {
      var k := c.timezone.localDate(s);
      var m :| 0 <= m < MINUTES_IN_DAY && StartOf(c, k, m) == s && Offers(c, k, m);
      OffersIff(c, k, m);
      assert OfferedAt(c, k, m, s);
    }
    if c.timezone.valid && exists k, m :: OfferedAt(c, k, m, s) {
      var k, m :| OfferedAt(c, k, m, s);
      OffersIff(c, k, m);
      assert StartOf(c, k, m) == s && c.timezone.localDate(s) == k;
    }
  }

  /** The start has its notice and lies within the horizon. */
  predicate InReach(c: SlotConfig, now: int, s: int) {
    now + c.minNoticeMinutes * 60_000 <= s < now + c.maxAdvanceDays * 86_400_000
  }

  /** What the write gate takes. */
  lemma GateOpenIff(c: SlotConfig, now: int, s: int)
    requires Stored(c)
    ensures GateOpen(c, now, s)
      <==> c.timezone.valid && InReach(c, now, s) && exists k, m :: OfferedAt(c, k, m, s)
  {
    OnGridIff(c, s);
  }

  /** What is generated: spans of the slot length at offered instants of the range, in reach of `now`
      and each over before or begun after every busy one, on the days the enumeration reaches. */
  lemma GeneratedIff(c: SlotConfig, o: Options, x: Span)
    requires Stored(c)
    ensures x in SlotsOf(c, o) <==>
      && x.endAt == x.startAt + c.slotDurationMinutes * 60_000
      && o.rangeStart <= x.startAt < o.rangeEnd && InReach(c, o.now, x.startAt)
      && c.timezone.valid && (exists k, m :: OfferedAt(c, k, m, x.startAt))
      && (forall b | b in o.busy :: x.endAt <= b.startAt || b.endAt <= x.startAt)
      && DayEnumerated(c, o, x.startAt)
    ensures MidnightsExist(c.timezone) && o.rangeStart <= x.startAt < o.rangeEnd && InReach(c, o.now, x.startAt)
      ==> DayEnumerated(c, o, x.startAt)
  {
    SlotIff(c, o, x);
    OnGridIff(c, x.startAt);
    if MidnightsExist(c.timezone) && Earliest(c, o) <= x.startAt < Latest(c, o) {
      AllDaysEnumerated(c, o, x.startAt);
    }
  }

  /** No start of a partly blocked hour is taken: the block from ten to eleven on day 1 closes the
      slots at ten and half past, and leaves the one at eleven. */
  lemma PartDayBlock(c: SlotConfig)
    requires Stored(c) && c.slotDurationMinutes == 30
    requires c.blockedDates == [BlockedDate(1, Some("10:00"), Some("11:00"))]
    ensures !Offers(c, 1, 600) && !Offers(c, 1, 630)
    ensures Offers(c, 1, 660) <==> Worked(c, 1, 660)
  {
    var b := BlockedDate(1, Some("10:00"), Some("11:00"));
    assert b in c.blockedDates;
    assert TimeToMinutes("10:00") == 600 && TimeToMinutes("11:00") == 660;
    OffersIff(c, 1, 600);
    OffersIff(c, 1, 630);
    OffersIff(c, 1, 660);
  }
}
