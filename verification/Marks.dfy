/** Schedules kept on marks: working hours and steps in whole multiples of so many minutes, such as
    half-hour slots on the half hour. Their slots stay disjoint across a clock change. */
module Marks {
  import opened Datetime
  import opened Availability
  import opened Slots
  import opened SlotLaws

  /** Working intervals start, and steps go, in multiples of `g` minutes, which a slot fits into. */
  ghost predicate OnMarks(c: SlotConfig, g: int) {
    && 0 < g && c.slotDurationMinutes <= g && Step(c) % g == 0
    && forall day, iv | day in c.weeklyHours && iv in day.intervals :: iv.From() % g == 0
  }

  /** Wall times on marks are whole multiples of `g` minutes apart as instants. */
  ghost predicate KeepsMarks(z: Zone, g: int)
    requires 0 < g
  {
    forall k, m, k', m' |
      0 <= m < MINUTES_IN_DAY && 0 <= m' < MINUTES_IN_DAY && m % g == 0 && m' % g == 0 ::
      (z.resolve(k', m' * MINUTE) - z.resolve(k, m * MINUTE)) % (g * MINUTE) == 0
  }

  lemma MultipleOf(q: int, g: int)
    requires 0 < g
    ensures q * g % g == 0
  {
    MultipleIff(q * g, g);
  }

  lemma Quotient(a: int, g: int) returns (q: int)
    requires 0 < g && a % g == 0
    ensures a == q * g
  {
    MultipleIff(a, g);
    q := a / g;
  }

  /** A mark and a number of steps between marks make a mark. */
  lemma StepsFromMark(from: int, m: int, step: int, g: int)
    requires 0 < g && 0 < step && from % g == 0 && step % g == 0 && (m - from) % step == 0
    ensures m % g == 0
  {
    var n := Quotient(m - from, step);
    var p := Quotient(step, g);
    var f := Quotient(from, g);
    calc {
      m;
      f * g + n * (p * g);
      f * g + n * p * g;
      (f + n * p) * g;
    }
    MultipleOf(f + n * p, g);
  }

  lemma IntervalOnMark(c: SlotConfig, g: int, weekday: int, iv: Interval)
    requires OnMarks(c, g) && iv in IntervalsOn(c.weeklyHours, weekday)
    ensures iv.From() % g == 0
  {
    IntervalsOnMember(c.weeklyHours, weekday);
  }

  lemma OffersOnMarks(c: SlotConfig, g: int, k: int, m: int)
    requires WellFormed(c) && OnMarks(c, g) && Offers(c, k, m)
    ensures m % g == 0
  {
    var iv :| iv in DayIntervals(c, k) && InInterval(c, iv, m);
    IntervalOnMark(c, g, Weekday(k, c.timezone), iv);
    StepsFromMark(iv.From(), m, Step(c), g);
  }

  lemma PositiveMultiple(a: int, g: int)
    requires 0 < g && 0 < a && a % g == 0
    ensures g <= a
  {
  }

  /** Two different starts on marks leave room for a slot. */
  lemma MarksGridDisjoint(c: SlotConfig, g: int)
    requires WellFormed(c) && OnMarks(c, g) && KeepsMarks(c.timezone, g)
    ensures GridDisjoint(c)
  {
    var z := c.timezone;
    forall s, s' | OnGrid(c, s) && OnGrid(c, s') && s < s'
      ensures AddMinutes(s, c.slotDurationMinutes) <= s'
    {
      var k, k' := z.localDate(s), z.localDate(s');
      var m :| 0 <= m < MINUTES_IN_DAY && StartOf(c, k, m) == s && Offers(c, k, m);
      var m' :| 0 <= m' < MINUTES_IN_DAY && StartOf(c, k', m') == s' && Offers(c, k', m');
      OffersOnMarks(c, g, k, m);
      OffersOnMarks(c, g, k', m');
      PositiveMultiple(s' - s, g * MINUTE);
    }
  }

  /** Where the clocks go forward by an hour, every divisor of sixty keeps its marks. */
  lemma SpringForwardKeepsMarks(gap: int, g: int)
    requires 0 < g && 60 % g == 0
    ensures KeepsMarks(SpringForward(gap), g)
  {
    var z := SpringForward(gap);
    var h := Quotient(60, g);
    forall k, m, k', m' | m % g == 0 && m' % g == 0
      ensures (z.resolve(k', m' * MINUTE) - z.resolve(k, m * MINUTE)) % (g * MINUTE) == 0
    {
      var a := Quotient(m, g);
      var b := Quotient(m', g);
      var n := HoursApart(gap, k, m, k', m');
      WholeMarks(n, h, b - a, g);
      assert (b - a) * g == m' - m;
    }
  }

  lemma WholeMarks(n: int, h: int, d: int, g: int)
    requires 0 < g && h * g == 60
    ensures (n * HOUR + d * g * MINUTE) % (g * MINUTE) == 0
  {
    assert n * HOUR == n * (h * g) * MINUTE == n * h * g * MINUTE;
    assert n * HOUR + d * g * MINUTE == (n * h + d) * (g * MINUTE);
    MultipleOf(n * h + d, g * MINUTE);
  }

  lemma HoursApart(gap: int, k: int, m: int, k': int, m': int) returns (n: int)
    ensures var z := SpringForward(gap);
      z.resolve(k', m' * MINUTE) - z.resolve(k, m * MINUTE) == n * HOUR + (m' - m) * MINUTE
  {
    var z := SpringForward(gap);
    var lost := (if z.resolve(k, m * MINUTE) == k * DAY + m * MINUTE then 0 else 1);
    var lost' := (if z.resolve(k', m' * MINUTE) == k' * DAY + m' * MINUTE then 0 else 1);
    n := (k' - k) * 24 - lost' + lost;
  }
}
