/** Instants, wall clocks and zones (src/utils/datetime.ts).

    An instant is a count of milliseconds; a calendar day is a day number, with
    day 0 a Thursday, standing for the `YYYY-MM-DD` key of the source. */
module Datetime {
  import opened Wrappers

  const MINUTE := 60_000
  const MINUTES_IN_DAY := 1440
  const DAY := 86_400_000

  /** A time zone as the date library presents it. `resolve(day, t)` is the instant of
      wall time `t` (milliseconds after midnight) on `day`, with a wall time skipped by a
      clock change pushed forward; `localDate` and `localTime` read an instant's wall clock. */
  datatype Zone = Zone(
    valid: bool,
    resolve: (int, int) -> int,
    localDate: int -> int,
    localTime: int -> int)

  /** Wall times belong to the day they were asked for, and local dates never run backwards. */
  ghost predicate Coherent(z: Zone) {
    && (forall k, t | 0 <= t < DAY :: z.localDate(z.resolve(k, t)) == k)
    && (forall i, j | i <= j :: z.localDate(i) <= z.localDate(j))
    && (forall i :: 0 <= z.localTime(i) < DAY)
  }

  /** A skipped wall time moves forward, and no wall time of a day resolves before its midnight. */
  ghost predicate PushesForward(z: Zone) {
    forall k, t | 0 <= t < DAY ::
      z.resolve(k, 0) <= z.resolve(k, t) && t <= z.localTime(z.resolve(k, t))
  }

  predicate MidnightExists(z: Zone, day: int) {
    z.localTime(z.resolve(day, 0)) == 0
  }

  ghost predicate MidnightsExist(z: Zone) {
    forall k :: MidnightExists(z, k)
  }

  /** Later wall times resolve at least as far apart as the wall clock says. */
  ghost predicate NonContracting(z: Zone) {
    forall k, m, k', m' |
      && 0 <= m < MINUTES_IN_DAY && 0 <= m' < MINUTES_IN_DAY
      && k * MINUTES_IN_DAY + m <= k' * MINUTES_IN_DAY + m' ::
      z.resolve(k', m' * MINUTE) - z.resolve(k, m * MINUTE)
      >= ((k' - k) * MINUTES_IN_DAY + m' - m) * MINUTE
  }

  // ----- Times of day ------------------------------------------------------

  function Digit(c: char): (d: int)
    requires '0' <= c <= '9'
    ensures 0 <= d <= 9
  {
    c as int - '0' as int
  }

  function DigitChar(d: int): (c: char)
    requires 0 <= d <= 9
    ensures '0' <= c <= '9' && Digit(c) == d
  {
    (d + '0' as int) as char
  }

  /** `HH:mm` on the 24-hour clock. */
  predicate IsTime(s: string) {
    && |s| == 5 && s[2] == ':'
    && '0' <= s[0] <= '2' && '0' <= s[1] <= '9' && (s[0] == '2' ==> s[1] <= '3')
    && '0' <= s[3] <= '5' && '0' <= s[4] <= '9'
  }

  function TimeToMinutes(s: string): (m: int)
    requires IsTime(s)
    ensures 0 <= m < MINUTES_IN_DAY
  {
    (Digit(s[0]) * 10 + Digit(s[1])) * 60 + Digit(s[3]) * 10 + Digit(s[4])
  }

  function MinutesToTime(m: int): (s: string)
    requires 0 <= m < MINUTES_IN_DAY
    ensures IsTime(s)
  {
    var hours, rest := m / 60, m % 60;
    [DigitChar(hours / 10), DigitChar(hours % 10), ':', DigitChar(rest / 10), DigitChar(rest % 10)]
  }

  lemma MinutesRoundTrip(m: int)
    requires 0 <= m < MINUTES_IN_DAY
    ensures TimeToMinutes(MinutesToTime(m)) == m
  {
    var hours, rest := m / 60, m % 60;
    assert hours / 10 * 10 + hours % 10 == hours && rest / 10 * 10 + rest % 10 == rest;
  }

  lemma DigitRoundTrip(c: char)
    requires '0' <= c <= '9'
    ensures DigitChar(Digit(c)) == c
  {
  }

  lemma TimeRoundTrip(s: string)
    requires IsTime(s)
    ensures MinutesToTime(TimeToMinutes(s)) == s
  {
    var h, h', r, r' := Digit(s[0]), Digit(s[1]), Digit(s[3]), Digit(s[4]);
    var m := TimeToMinutes(s);
    assert m / 60 == h * 10 + h' && m % 60 == r * 10 + r';
    assert (h * 10 + h') / 10 == h && (h * 10 + h') % 10 == h';
    assert (r * 10 + r') / 10 == r && (r * 10 + r') % 10 == r';
    assert MinutesToTime(m) == [DigitChar(h), DigitChar(h'), ':', DigitChar(r), DigitChar(r')];
    DigitRoundTrip(s[0]);
    DigitRoundTrip(s[1]);
    DigitRoundTrip(s[3]);
    DigitRoundTrip(s[4]);
    assert s == [s[0], s[1], s[2], s[3], s[4]];
  }

  /** The instant at `minutes` past midnight of `day`; none when the zone is not recognised. */
  function WallTimeToUtc(day: int, minutes: int, z: Zone): Option<int>
    requires 0 <= minutes
  {
    if z.valid
    then Some(z.resolve(day + minutes / MINUTES_IN_DAY, minutes % MINUTES_IN_DAY * MINUTE))
    else None
  }

  function Weekday(day: int, z: Zone): (w: int)
    ensures 0 <= w < 7
  {
    (z.localDate(z.resolve(day, 0)) + 4) % 7
  }

  /** Day 0, the first of January 1970, was a Thursday, and the week goes on from there. */
  lemma WeekdayOf(day: int, z: Zone)
    requires Coherent(z)
    ensures Weekday(day, z) == (day + 4) % 7
    ensures Weekday(0, z) == 4 && Weekday(day + 1, z) == (Weekday(day, z) + 1) % 7
  {
    assert z.localDate(z.resolve(day, 0)) == day && z.localDate(z.resolve(day + 1, 0)) == day + 1;
    assert z.localDate(z.resolve(0, 0)) == 0;
  }

  function AddMinutes(instant: int, minutes: int): int {
    instant + minutes * MINUTE
  }

  function AddDays(instant: int, days: int): int {
    instant + days * DAY
  }

  predicate Overlaps(aStart: int, aEnd: int, bStart: int, bEnd: int) {
    aStart < bEnd && aEnd > bStart
  }

  predicate Covers(from: int, to: int, instant: int) {
    from <= instant < to
  }

  /** Two stretches of time overlap exactly when they have an instant in common. */
  lemma OverlapsIff(aStart: int, aEnd: int, bStart: int, bEnd: int)
    requires aStart < aEnd && bStart < bEnd
    ensures Overlaps(aStart, aEnd, bStart, bEnd)
      <==> exists t :: Covers(aStart, aEnd, t) && Covers(bStart, bEnd, t)
  {
    if Overlaps(aStart, aEnd, bStart, bEnd) {
      var t := if aStart < bStart then bStart else aStart;
      assert Covers(aStart, aEnd, t) && Covers(bStart, bEnd, t);
    }
  }

  // ----- The days a range touches ------------------------------------------

  /** Where the day cursor stands on day `k` when it set out at the start of day `a`: each
      step keeps the wall time it had, so a pushed-forward midnight is carried along. */
  function CursorOn(z: Zone, a: int, k: int): int
    requires a <= k
    decreases k - a
  {
    if k == a then z.resolve(a, 0) else z.resolve(k, z.localTime(CursorOn(z, a, k - 1)))
  }

  /** The cursor, on reaching the last day, is not already past that day's start. */
  predicate LastDayReached(z: Zone, a: int, b: int) {
    a <= b && CursorOn(z, a, b) <= z.resolve(b, 0)
  }

  function DaysFrom(a: int, b: int): (days: seq<int>)
    requires a <= b
    ensures |days| == b - a && forall k :: k in days <==> a <= k < b
    decreases b - a
  {
    if a == b then [] else DaysFrom(a, b - 1) + [b - 1]
  }

  /** The keys the source lists: every local day of the range, except that the last one is
      missing when the cursor overshoots its start. */
  function DateKeys(z: Zone, from: int, to: int): seq<int> {
    var a, b := z.localDate(from), z.localDate(to);
    if !z.valid || b < a then [] else DaysFrom(a, if LastDayReached(z, a, b) then b + 1 else b)
  }

  method DateKeysBetween(from: int, to: int, z: Zone) returns (keys: seq<int>)
    requires Coherent(z)
    ensures keys == DateKeys(z, from, to)
  {
    keys := [];
    if !z.valid {
      return;
    }
    var cursor := z.resolve(z.localDate(from), 0);
    var last := z.resolve(z.localDate(to), 0);
    ghost var a, b := z.localDate(from), z.localDate(to);
    while cursor <= last
      invariant b < a ==> keys == [] && z.localDate(cursor) == a
      invariant a <= b ==>
        && a <= z.localDate(cursor) <= b + 1
        && cursor == CursorOn(z, a, z.localDate(cursor))
        && keys == DaysFrom(a, z.localDate(cursor))
        && (z.localDate(cursor) == b + 1 ==> LastDayReached(z, a, b))
      decreases b - z.localDate(cursor)
    {
      keys := keys + [z.localDate(cursor)];
      cursor := z.resolve(z.localDate(cursor) + 1, z.localTime(cursor));
    }
  }

  lemma {:induction false} CursorAtMidnight(z: Zone, a: int, k: int)
    requires a <= k && forall j | a <= j < k :: MidnightExists(z, j)
    ensures CursorOn(z, a, k) == z.resolve(k, 0)
    decreases k - a
  {
    if a < k {
      CursorAtMidnight(z, a, k - 1);
      assert MidnightExists(z, k - 1);
    }
  }

  lemma {:induction false} CursorLate(z: Zone, a: int, j: int, k: int)
    requires Coherent(z) && PushesForward(z) && a <= j <= k && !MidnightExists(z, j)
    ensures 0 < z.localTime(CursorOn(z, a, k))
    decreases k - a
  {
    if j < k {
      CursorLate(z, a, j, k - 1);
    } else if a < j {
      var t := z.localTime(CursorOn(z, a, j - 1));
      assert 0 <= t <= z.localTime(z.resolve(j, t));
    }
  }

  /** The wall time at which a day begins: midnight, unless that is skipped. */
  function DayBegins(z: Zone, day: int): int {
    z.localTime(z.resolve(day, 0))
  }

  /** Reading the clock as the day begins and resolving that gives the same instant, and of the
      skipped wall times only midnight itself moves to it. */
  ghost predicate BeginsOnce(z: Zone, day: int) {
    && z.resolve(day, DayBegins(z, day)) == z.resolve(day, 0)
    && forall t | 0 < t < DayBegins(z, day) :: z.resolve(day, 0) < z.resolve(day, t)
  }

  lemma MidnightBeginsOnce(z: Zone, day: int)
    requires MidnightExists(z, day)
    ensures BeginsOnce(z, day)
  {
  }

  /** No midnight before the last day is skipped, or the cursor happens to come from the day
      before with the very wall time at which the last day begins. */
  predicate ArrivesInTime(z: Zone, a: int, b: int)
    requires a <= b
  {
    || (forall j | a <= j < b :: MidnightExists(z, j))
    || (a < b && z.localTime(CursorOn(z, a, b - 1)) == DayBegins(z, b))
  }

  /** Exactly when the last day is reached. */
  lemma LastDayReachedIff(z: Zone, a: int, b: int)
    requires Coherent(z) && PushesForward(z) && a <= b && BeginsOnce(z, b)
    ensures LastDayReached(z, a, b) <==> ArrivesInTime(z, a, b)
    ensures MidnightExists(z, b) ==>
      (LastDayReached(z, a, b) <==> forall j | a <= j < b :: MidnightExists(z, j))
  {
    if forall j | a <= j < b :: MidnightExists(z, j) {
      CursorAtMidnight(z, a, b);
    } else {
      var j :| a <= j < b && !MidnightExists(z, j);
      CursorLate(z, a, j, b - 1);
      var t := z.localTime(CursorOn(z, a, b - 1));
      assert z.resolve(b, 0) <= z.resolve(b, t) && 0 < t <= z.localTime(z.resolve(b, t));
    }
  }

  /** The inclusive list of days is what the loop returns exactly when the cursor arrives in time;
      where the last day has its midnight, exactly when no midnight before it is skipped. */
  lemma KeysCoverRangeIff(z: Zone, from: int, to: int)
    requires z.valid && Coherent(z) && PushesForward(z) && from <= to
    requires BeginsOnce(z, z.localDate(to))
    ensures var a, b := z.localDate(from), z.localDate(to);
      && (DateKeys(z, from, to) == DaysFrom(a, b + 1) <==> ArrivesInTime(z, a, b))
      && (MidnightExists(z, b) ==>
           (DateKeys(z, from, to) == DaysFrom(a, b + 1) <==> forall j | a <= j < b :: MidnightExists(z, j)))
  {
    LastDayReachedIff(z, z.localDate(from), z.localDate(to));
  }

  /** Every day after `j` up to `k` has the wall time at which day `j` begins. */
  predicate Carries(z: Zone, j: int, k: int) {
    forall i | j < i <= k :: z.localTime(z.resolve(i, DayBegins(z, j))) == DayBegins(z, j)
  }

  predicate FirstSkipped(z: Zone, a: int, j: int) {
    a <= j && !MidnightExists(z, j) && forall i | a <= i < j :: MidnightExists(z, i)
  }

  lemma {:induction false} CursorCarries(z: Zone, a: int, j: int, k: int)
    requires FirstSkipped(z, a, j) && j <= k && Carries(z, j, k)
    ensures z.localTime(CursorOn(z, a, k)) == DayBegins(z, j)
    decreases k - j
  {
    if k == j {
      CursorAtMidnight(z, a, j);
    } else {
      CursorCarries(z, a, j, k - 1);
    }
  }

  /** After a first skipped midnight, on day `j`, the list is complete exactly when the last day
      skips its midnight too and begins at the very wall time at which day `j` began. */
  lemma KeysAfterSkipIff(z: Zone, from: int, to: int, j: int)
    requires z.valid && Coherent(z) && PushesForward(z) && from <= to
    requires BeginsOnce(z, z.localDate(to)) && j < z.localDate(to)
    requires FirstSkipped(z, z.localDate(from), j) && Carries(z, j, z.localDate(to) - 1)
    ensures DateKeys(z, from, to) == DaysFrom(z.localDate(from), z.localDate(to) + 1)
      <==> DayBegins(z, z.localDate(to)) == DayBegins(z, j)
  {
    KeysCoverRangeIff(z, from, to);
    CursorCarries(z, z.localDate(from), j, z.localDate(to) - 1);
  }

  // ----- Zones that satisfy, and that break, the hypotheses -------------------

  /** A zone `offset` milliseconds ahead of UTC all year round. */
  function FixedOffset(offset: int): Zone {
    Zone(true, (k, t) => k * DAY + t - offset, i => (i + offset) / DAY, i => (i + offset) % DAY)
  }

  lemma FixedOffsetIsRegular(offset: int)
    ensures var z := FixedOffset(offset);
      Coherent(z) && PushesForward(z) && MidnightsExist(z) && NonContracting(z)
  {
    var z := FixedOffset(offset);
    forall k ensures MidnightExists(z, k) {
      assert z.resolve(k, 0) + offset == k * DAY;
    }
  }

  const HOUR := 3_600_000

  /** A zone whose clocks skip the hour from `gap` to `gap + HOUR` on day 1. */
  function SpringForward(gap: int): Zone {
    Zone(
      true,
      (k, t) =>
        if k < 1 || (k == 1 && t < gap + HOUR) then k * DAY + t else k * DAY + t - HOUR,
      i => (if i < DAY + gap then i else i + HOUR) / DAY,
      i => (if i < DAY + gap then i else i + HOUR) % DAY)
  }

  lemma SpringForwardIsCoherent(gap: int)
    requires 0 <= gap <= DAY - 2 * HOUR
    ensures Coherent(SpringForward(gap))
  {
  }

  lemma TimeOfDay(k: int, u: int)
    requires 0 <= u < DAY
    ensures (k * DAY + u) % DAY == u
  {
  }

  lemma SpringForwardPushes(gap: int)
    requires 0 <= gap <= DAY - 2 * HOUR
    ensures PushesForward(SpringForward(gap))
  {
    var z := SpringForward(gap);
    forall k, t | 0 <= t < DAY
      ensures z.resolve(k, 0) <= z.resolve(k, t) && t <= z.localTime(z.resolve(k, t))
    {
      TimeOfDay(k, t);
      if t + HOUR < DAY {
        TimeOfDay(k, t + HOUR);
      }
    }
  }

  lemma SpringForwardMidnights(gap: int)
    requires 0 <= gap <= DAY - 2 * HOUR
    ensures forall k :: MidnightExists(SpringForward(gap), k) <==> !(k == 1 && gap == 0)
    ensures MidnightsExist(SpringForward(gap)) <==> 0 < gap
  {
    var z := SpringForward(gap);
    forall k ensures MidnightExists(z, k) <==> !(k == 1 && gap == 0) {
      TimeOfDay(k, 0);
      TimeOfDay(k, HOUR);
    }
    assert !MidnightExists(z, 1) <==> gap == 0;
  }

  lemma SpringForwardBeginsOnce(gap: int)
    requires 0 <= gap <= DAY - 2 * HOUR
    ensures forall k :: BeginsOnce(SpringForward(gap), k)
  {
    var z := SpringForward(gap);
    SpringForwardMidnights(gap);
    forall k ensures BeginsOnce(z, k) {
      if !MidnightExists(z, k) {
        assert z.resolve(1, HOUR) == z.resolve(1, 0) == DAY;
        TimeOfDay(1, HOUR);
      }
    }
  }

  /** In a zone with one gap the list is short exactly when the gap is at midnight and the range
      goes from that day or an earlier one to a later one. */
  lemma SpringForwardKeysIff(gap: int, from: int, to: int)
    requires 0 <= gap <= DAY - 2 * HOUR && from <= to
    ensures var z := SpringForward(gap); var a, b := z.localDate(from), z.localDate(to);
      DateKeys(z, from, to) == DaysFrom(a, b + 1) <==> !(gap == 0 && a <= 1 < b)
  {
    var z := SpringForward(gap);
    SpringForwardIsCoherent(gap);
    SpringForwardPushes(gap);
    SpringForwardMidnights(gap);
    SpringForwardBeginsOnce(gap);
    KeysCoverRangeIff(z, from, to);
  }

  /** A clock skipped at midnight: the two days from the change are listed as one. */
  lemma SkippedMidnightDropsADay()
    ensures var z := SpringForward(0);
      && z.localDate(DAY) == 1 && z.localDate(2 * DAY) == 2
      && DateKeys(z, DAY, 2 * DAY) == [1]
  {
    var z := SpringForward(0);
    assert CursorOn(z, 1, 1) == DAY;
    assert CursorOn(z, 1, 2) == 2 * DAY;
    assert !LastDayReached(z, 1, 2);
    assert DaysFrom(1, 2) == [1];
  }
}
