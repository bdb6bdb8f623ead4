/** A consultant's schedule and its validation (src/models/Availability.ts,
    src/validators/availability.validator.ts). */
module Availability {
  import opened Wrappers
  import opened Datetime
  import opened Sorting

  type Time = s: string | IsTime(s) witness "00:00"

  datatype Interval = Interval(start: Time, end: Time) {
    function From(): int { TimeToMinutes(start) }

    function To(): int { TimeToMinutes(end) }
  }

  datatype WorkingDay = WorkingDay(weekday: int, intervals: seq<Interval>)

  /** A blocked day, or with both times given a blocked part of one. */
  datatype BlockedDate = BlockedDate(date: int, startTime: Option<Time>, endTime: Option<Time>)

  datatype SlotConfig = SlotConfig(
    timezone: Zone,
    slotDurationMinutes: int,
    bufferMinutes: int,
    minNoticeMinutes: int,
    maxAdvanceDays: int,
    weeklyHours: seq<WorkingDay>,
    blockedDates: seq<BlockedDate>)

  const SLOT_DURATIONS := {15, 30, 45, 60, 90}
  const BUFFER_MINUTES_MAX := 60
  const MIN_NOTICE_MINUTES_MAX := 14 * 24 * 60
  const MAX_ADVANCE_DAYS_MAX := 180
  const INTERVALS_PER_DAY_MAX := 4
  const BLOCKED_DATES_MAX := 90

  /** What the stored schema guarantees of every schedule, edited or not. */
  ghost predicate WellFormed(c: SlotConfig) {
    && c.slotDurationMinutes in SLOT_DURATIONS
    && 0 <= c.bufferMinutes <= BUFFER_MINUTES_MAX
    && 0 <= c.minNoticeMinutes
    && 1 <= c.maxAdvanceDays <= MAX_ADVANCE_DAYS_MAX
  }

  ghost predicate AllWellFormed(schedules: map<nat, SlotConfig>) {
    forall hr | hr in schedules :: WellFormed(schedules[hr])
  }

  /** A stored schedule in a zone that never skips a whole day. */
  ghost predicate Stored(c: SlotConfig) {
    WellFormed(c) && Coherent(c.timezone)
  }

  predicate IntervalsValid(ivs: seq<Interval>) {
    && |ivs| <= INTERVALS_PER_DAY_MAX
    && PositiveLengths(ivs)
    && !HasOverlappingIntervals(ivs)
  }

  predicate BlockValid(b: BlockedDate) {
    match (b.startTime, b.endTime)
    case (Some(start), Some(end)) => TimeToMinutes(start) < TimeToMinutes(end)
    case (None, None) => true
    case (_, _) => false
  }

  /** What an edited schedule must satisfy to be saved. */
  ghost predicate Validated(c: SlotConfig) {
    && Stored(c)
    && c.timezone.valid
    && c.minNoticeMinutes <= MIN_NOTICE_MINUTES_MAX
    && |c.weeklyHours| <= 7
    && (forall d | d in c.weeklyHours :: 0 <= d.weekday <= 6 && IntervalsValid(d.intervals))
    && (forall i, j | 0 <= i < j < |c.weeklyHours| ::
          c.weeklyHours[i].weekday != c.weeklyHours[j].weekday)
    && |c.blockedDates| <= BLOCKED_DATES_MAX
    && (forall b | b in c.blockedDates :: BlockValid(b))
  }

  // ----- Overlap detection ----------------------------------------------------

  predicate PositiveLengths(ivs: seq<Interval>) {
    forall iv | iv in ivs :: iv.From() < iv.To()
  }

  predicate Disjoint(a: Interval, b: Interval) {
    !Overlaps(a.From(), a.To(), b.From(), b.To())
  }

  predicate PairwiseDisjoint(ivs: seq<Interval>) {
    forall i, j | 0 <= i < j < |ivs| :: Disjoint(ivs[i], ivs[j])
  }

  /** Sort by start, then look for an interval that begins before its predecessor ends. */
  predicate HasOverlappingIntervals(ivs: seq<Interval>) {
    var sorted := SortBy(ivs, (iv: Interval) => iv.From());
    exists i | 0 <= i < |sorted| :: 0 < i && sorted[i].From() < sorted[i - 1].To()
  }

  ghost predicate ClearOf(x: Interval, xs: seq<Interval>) {
    forall y | y in xs :: Disjoint(x, y)
  }

  lemma AppendPairwise(xs: seq<Interval>, x: Interval)
    ensures PairwiseDisjoint(xs + [x]) <==> PairwiseDisjoint(xs) && ClearOf(x, xs)
  {
    var r := xs + [x];
    if PairwiseDisjoint(r) {
      forall i, j | 0 <= i < j < |xs| ensures Disjoint(xs[i], xs[j]) {
        assert Disjoint(r[i], r[j]);
      }
      forall y | y in xs ensures Disjoint(x, y) {
        var i :| 0 <= i < |xs| && xs[i] == y;
        assert Disjoint(r[i], r[|xs|]);
      }
    }
    if PairwiseDisjoint(xs) && ClearOf(x, xs) {
      forall i, j | 0 <= i < j < |r| ensures Disjoint(r[i], r[j]) {
        if j < |xs| {
          assert Disjoint(xs[i], xs[j]);
        } else {
          assert Disjoint(x, xs[i]);
        }
      }
    }
  }

  lemma ClearOfInsert(z: Interval, xs: seq<Interval>, x: Interval, key: Interval -> int)
    ensures ClearOf(z, Insert(xs, x, key)) <==> ClearOf(z, xs) && Disjoint(z, x)
  {
    InsertAdds(xs, x, key);
    var r := Insert(xs, x, key);
    assert forall y :: y in r <==> y in multiset(r);
    assert forall y :: y in r <==> y in xs || y == x;
  }

  lemma {:induction false} InsertPairwise(xs: seq<Interval>, x: Interval, key: Interval -> int)
    ensures PairwiseDisjoint(Insert(xs, x, key)) <==> PairwiseDisjoint(xs) && ClearOf(x, xs)
  {
    if xs == [] || key(xs[|xs| - 1]) <= key(x) {
      AppendPairwise(xs, x);
    } else {
      var front, last := xs[..|xs| - 1], xs[|xs| - 1];
      assert xs == front + [last];
      InsertPairwise(front, x, key);
      ClearOfInsert(last, front, x, key);
      AppendPairwise(Insert(front, x, key), last);
      AppendPairwise(front, last);
      assert ClearOf(x, xs) <==> ClearOf(x, front) && Disjoint(x, last);
    }
  }

  lemma {:induction false} SortPairwise(xs: seq<Interval>, key: Interval -> int)
    ensures PairwiseDisjoint(SortBy(xs, key)) <==> PairwiseDisjoint(xs)
  {
    if xs != [] {
      var front, last := xs[..|xs| - 1], xs[|xs| - 1];
      assert xs == front + [last];
      SortPairwise(front, key);
      InsertPairwise(SortBy(front, key), last, key);
      SortByElements(front, key);
      AppendPairwise(front, last);
    }
  }

  lemma {:induction false} NeighboursChain(xs: seq<Interval>, i: int, j: int)
    requires PositiveLengths(xs) && 0 <= i < j < |xs|
    requires forall k | 0 < k < |xs| :: xs[k - 1].To() <= xs[k].From()
    ensures xs[i].To() <= xs[j].From()
    decreases j
  {
    if i < j - 1 {
      NeighboursChain(xs, i, j - 1);
      assert xs[j - 1] in xs;
    }
  }

  /** The sort-and-compare-neighbours check decides pairwise disjointness. */
  lemma OverlapCheckIff(ivs: seq<Interval>)
    requires PositiveLengths(ivs)
    ensures HasOverlappingIntervals(ivs) <==> !PairwiseDisjoint(ivs)
  {
    var key := (iv: Interval) => iv.From();
    var xs := SortBy(ivs, key);
    SortBySorts(ivs, key);
    SortByElements(ivs, key);
    SortPairwise(ivs, key);
    if PairwiseDisjoint(xs) {
      forall k | 0 < k < |xs| ensures xs[k - 1].To() <= xs[k].From() {
        assert Disjoint(xs[k - 1], xs[k]) && xs[k] in xs;
        assert key(xs[k - 1]) <= key(xs[k]);
      }
    }
    if !HasOverlappingIntervals(ivs) {
      forall i, j | 0 <= i < j < |xs| ensures Disjoint(xs[i], xs[j]) {
        NeighboursChain(xs, i, j);
      }
    }
  }

  /** What a schedule must be to be saved: the limits, one entry a weekday, intervals of positive
      length that are disjoint pairwise, and blocks of a whole day or of a positive length. */
  lemma ValidatedIff(c: SlotConfig)
    requires Coherent(c.timezone)
    ensures Validated(c) <==>
      && c.timezone.valid
      && c.slotDurationMinutes in {15, 30, 45, 60, 90} && 0 <= c.bufferMinutes <= 60
      && 0 <= c.minNoticeMinutes <= 14 * 24 * 60 && 1 <= c.maxAdvanceDays <= 180
      && |c.weeklyHours| <= 7 && |c.blockedDates| <= 90
      && (forall d | d in c.weeklyHours :: 0 <= d.weekday <= 6 && HoursGood(d.intervals))
      && (forall i, j | 0 <= i < j < |c.weeklyHours| :: c.weeklyHours[i].weekday != c.weeklyHours[j].weekday)
      && (forall b | b in c.blockedDates :: BlockGood(b))
  {
    forall d | d in c.weeklyHours ensures IntervalsValid(d.intervals) <==> HoursGood(d.intervals) {
      HoursGoodIff(d.intervals);
    }
  }

  predicate HoursGood(ivs: seq<Interval>) {
    && |ivs| <= 4
    && (forall iv | iv in ivs :: TimeToMinutes(iv.start) < TimeToMinutes(iv.end))
    && (forall i, j | 0 <= i < j < |ivs| ::
          || TimeToMinutes(ivs[i].end) <= TimeToMinutes(ivs[j].start)
          || TimeToMinutes(ivs[j].end) <= TimeToMinutes(ivs[i].start))
  }

  predicate BlockGood(b: BlockedDate) {
    || (b.startTime.None? && b.endTime.None?)
    || (b.startTime.Some? && b.endTime.Some? && TimeToMinutes(b.startTime.value) < TimeToMinutes(b.endTime.value))
  }

  lemma HoursGoodIff(ivs: seq<Interval>)
    ensures IntervalsValid(ivs) <==> HoursGood(ivs)
  {
    if PositiveLengths(ivs) {
      OverlapCheckIff(ivs);
      forall i, j | 0 <= i < j < |ivs|
        ensures Disjoint(ivs[i], ivs[j]) <==>
          || TimeToMinutes(ivs[i].end) <= TimeToMinutes(ivs[j].start)
          || TimeToMinutes(ivs[j].end) <= TimeToMinutes(ivs[i].start)
      {
      }
    }
  }
}
