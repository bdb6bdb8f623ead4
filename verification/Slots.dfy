/** Slot generation (src/services/slot.service.ts): the declarative set of offered starts, and
    the nested-loop generator proved to return exactly its ascending listing. */
module Slots {
  import opened Datetime
  import opened Sorting
  import opened Availability

  /** A slot, or a busy stretch. */
  datatype Span = Span(startAt: int, endAt: int)

  datatype Options = Options(rangeStart: int, rangeEnd: int, now: int, busy: seq<Span>)

  // ----- The declarative set ----------------------------------------------------

  function Earliest(c: SlotConfig, o: Options): int {
    var notice := AddMinutes(o.now, c.minNoticeMinutes);
    if o.rangeStart > notice then o.rangeStart else notice
  }

  function Latest(c: SlotConfig, o: Options): int {
    var horizon := AddDays(o.now, c.maxAdvanceDays);
    if o.rangeEnd < horizon then o.rangeEnd else horizon
  }

  /** The intervals worked on a weekday; a later entry for the same weekday wins. */
  function IntervalsOn(days: seq<WorkingDay>, weekday: int): seq<Interval> {
    if days == [] then []
    else
      var last := days[|days| - 1];
      if last.weekday == weekday then last.intervals else IntervalsOn(days[..|days| - 1], weekday)
  }

  function BlocksOn(blocked: seq<BlockedDate>, day: int): seq<BlockedDate> {
    if blocked == [] then []
    else
      var last := blocked[|blocked| - 1];
      BlocksOn(blocked[..|blocked| - 1], day) + if last.date == day then [last] else []
  }

  predicate FullDay(block: BlockedDate) {
    block.startTime.None? || block.endTime.None?
  }

  predicate Blocks(block: BlockedDate, startMinutes: int, endMinutes: int) {
    FullDay(block)
    || (startMinutes < TimeToMinutes(block.endTime.value)
        && endMinutes > TimeToMinutes(block.startTime.value))
  }

  predicate IsBlocked(blocks: seq<BlockedDate>, startMinutes: int, endMinutes: int) {
    exists block | block in blocks :: Blocks(block, startMinutes, endMinutes)
  }

  function Step(c: SlotConfig): int {
    c.slotDurationMinutes + c.bufferMinutes
  }

  function SpanAt(c: SlotConfig, s: int): Span {
    Span(s, AddMinutes(s, c.slotDurationMinutes))
  }

  /** A whole number of steps into the interval, with room left for a slot. */
  ghost predicate InInterval(c: SlotConfig, iv: Interval, m: int)
    requires WellFormed(c)
  {
    iv.From() <= m && m + c.slotDurationMinutes <= iv.To() && (m - iv.From()) % Step(c) == 0
  }

  ghost predicate Unblocked(c: SlotConfig, day: int, m: int) {
    !IsBlocked(BlocksOn(c.blockedDates, day), m, m + c.slotDurationMinutes)
  }

  ghost function DayIntervals(c: SlotConfig, day: int): seq<Interval> {
    IntervalsOn(c.weeklyHours, Weekday(day, c.timezone))
  }

  /** The schedule offers a slot at minute `m` of `day`. */
  ghost predicate Offers(c: SlotConfig, day: int, m: int)
    requires WellFormed(c)
  {
    && (exists iv | iv in DayIntervals(c, day) :: InInterval(c, iv, m))
    && Unblocked(c, day, m)
  }

  function StartOf(c: SlotConfig, day: int, m: int): int {
    c.timezone.resolve(day, m * MINUTE)
  }

  /** The schedule offers a slot at instant `s`, whenever it is asked. */
  ghost predicate OnGrid(c: SlotConfig, s: int)
    requires WellFormed(c)
  {
    && c.timezone.valid
    && exists m | 0 <= m < MINUTES_IN_DAY ::
         StartOf(c, c.timezone.localDate(s), m) == s && Offers(c, c.timezone.localDate(s), m)
  }

  predicate Clear(busy: seq<Span>, slot: Span) {
    forall b | b in busy :: !Overlaps(slot.startAt, slot.endAt, b.startAt, b.endAt)
  }

  /** The day enumeration gets as far as the day of `s`. */
  predicate DayEnumerated(c: SlotConfig, o: Options, s: int) {
    var z := c.timezone;
    || z.localDate(s) < z.localDate(Latest(c, o))
    || LastDayReached(z, z.localDate(Earliest(c, o)), z.localDate(Latest(c, o)))
  }

  ghost predicate Offered(c: SlotConfig, o: Options, s: int)
    requires WellFormed(c)
  {
    && Earliest(c, o) <= s < Latest(c, o)
    && OnGrid(c, s)
    && Clear(o.busy, SpanAt(c, s))
    && DayEnumerated(c, o, s)
  }

  ghost function OfferedStarts(c: SlotConfig, o: Options): set<int>
    requires WellFormed(c)
  {
    set s | Earliest(c, o) <= s < Latest(c, o) && Offered(c, o, s)
  }

  function SpanList(c: SlotConfig, starts: seq<int>): (spans: seq<Span>)
    ensures |spans| == |starts|
    ensures forall i | 0 <= i < |starts| :: spans[i] == SpanAt(c, starts[i])
  {
    seq(|starts|, i requires 0 <= i < |starts| => SpanAt(c, starts[i]))
  }

  ghost predicate Ascend(slots: seq<Span>) {
    forall i, j | 0 <= i < j < |slots| :: slots[i].startAt < slots[j].startAt
  }

  /** The slots a schedule offers: every offered start once, in ascending order. */
  ghost function SlotsOf(c: SlotConfig, o: Options): seq<Span>
    requires WellFormed(c)
  {
    SpanList(c, Ascending(OfferedStarts(c, o)))
  }

  // ----- What the loops collect ---------------------------------------------------

  ghost predicate Admits(c: SlotConfig, o: Options, day: int, m: int) {
    var s := StartOf(c, day, m);
    && c.timezone.valid
    && Unblocked(c, day, m)
    && Earliest(c, o) <= s < Latest(c, o)
    && Clear(o.busy, SpanAt(c, s))
  }

  ghost predicate Candidate(c: SlotConfig, o: Options, day: int, iv: Interval, m: int)
    requires WellFormed(c)
  {
    InInterval(c, iv, m) && Admits(c, o, day, m)
  }

  /** Starts found in one interval at offsets below `limit`. */
  ghost function IntervalStarts(c: SlotConfig, o: Options, day: int, iv: Interval, limit: int): set<int>
    requires WellFormed(c)
  {
    set m | iv.From() <= m < limit && Candidate(c, o, day, iv, m) :: StartOf(c, day, m)
  }

  ghost function DayStarts(c: SlotConfig, o: Options, day: int, ivs: seq<Interval>): set<int>
    requires WellFormed(c)
  {
    if ivs == [] then {}
    else
      DayStarts(c, o, day, ivs[..|ivs| - 1])
      + IntervalStarts(c, o, day, ivs[|ivs| - 1], MINUTES_IN_DAY)
  }

  ghost function RangeStarts(c: SlotConfig, o: Options, days: seq<int>): set<int>
    requires WellFormed(c)
  {
    if days == [] then {}
    else
      var day := days[|days| - 1];
      RangeStarts(c, o, days[..|days| - 1]) + DayStarts(c, o, day, DayIntervals(c, day))
  }

  ghost function SpansOf(c: SlotConfig, starts: set<int>): set<Span> {
    set s | s in starts :: SpanAt(c, s)
  }

  /** `slots` holds one slot for each start in `seen`. */
  ghost predicate Collected(c: SlotConfig, slots: seq<Span>, seen: set<int>) {
    multiset(slots) == multiset(SpansOf(c, seen))
  }

  lemma CollectOne(c: SlotConfig, slots: seq<Span>, seen: set<int>, s: int)
    requires Collected(c, slots, seen) && s !in seen
    ensures Collected(c, slots + [SpanAt(c, s)], seen + {s})
  {
    assert SpansOf(c, seen + {s}) == SpansOf(c, seen) + {SpanAt(c, s)};
    assert SpanAt(c, s) !in SpansOf(c, seen);
  }

  lemma {:induction false} AtLeastOneStep(d: int, step: int)
    requires 0 < step && 1 <= d
    ensures step <= d * step
  {
    if 1 < d {
      AtLeastOneStep(d - 1, step);
      assert d * step == (d - 1) * step + step;
    }
  }

  /** Two multiples of `step` less than `step` apart are the same. */
  lemma MultiplesApart(k: int, n: int, step: int)
    requires 0 < step && k * step <= n * step < k * step + step
    ensures k == n
  {
    var d := if k < n then n - k else k - n;
    assert d * step == if k < n then n * step - k * step else k * step - n * step;
    if d != 0 {
      AtLeastOneStep(d, step);
    }
  }

  lemma MultipleIff(a: int, step: int)
    requires 0 < step
    ensures a % step == 0 ==> a == a / step * step
    ensures forall k | a == k * step :: a % step == 0
  {
    forall k | a == k * step ensures a % step == 0 {
      MultiplesApart(a / step, k, step);
    }
  }

  lemma NextOffset(a: int, step: int)
    requires 0 < step && a % step == 0
    ensures (a + step) % step == 0
  {
    MultipleIff(a, step);
    MultipleIff(a + step, step);
    assert a + step == (a / step + 1) * step;
  }

  ghost predicate OnStep(c: SlotConfig, iv: Interval, offset: int)
    requires WellFormed(c)
  {
    iv.From() <= offset && (offset - iv.From()) % Step(c) == 0
  }

  lemma SameStep(c: SlotConfig, iv: Interval, m: int, offset: int)
    requires WellFormed(c) && OnStep(c, iv, offset) && OnStep(c, iv, m)
    requires offset <= m < offset + Step(c)
    ensures m == offset
  {
    MultipleIff(offset - iv.From(), Step(c));
    MultipleIff(m - iv.From(), Step(c));
    MultiplesApart((offset - iv.From()) / Step(c), (m - iv.From()) / Step(c), Step(c));
  }

  /** One turn of the innermost loop. */
  lemma IntervalStep(c: SlotConfig, o: Options, day: int, iv: Interval, offset: int)
    requires WellFormed(c) && OnStep(c, iv, offset) && offset + c.slotDurationMinutes <= iv.To()
    ensures OnStep(c, iv, offset + Step(c))
    ensures IntervalStarts(c, o, day, iv, offset + Step(c))
      == IntervalStarts(c, o, day, iv, offset)
         + if Admits(c, o, day, offset) then {StartOf(c, day, offset)} else {}
  {
    NextOffset(offset - iv.From(), Step(c));
    assert offset + Step(c) - iv.From() == offset - iv.From() + Step(c);
    forall m | offset <= m < offset + Step(c) && Candidate(c, o, day, iv, m) ensures m == offset {
      SameStep(c, iv, m, offset);
    }
    assert Admits(c, o, day, offset) ==> Candidate(c, o, day, iv, offset);
  }

  lemma NoRoomBeyond(c: SlotConfig, o: Options, day: int, iv: Interval, offset: int)
    requires WellFormed(c) && iv.From() <= offset && iv.To() < offset + c.slotDurationMinutes
    ensures IntervalStarts(c, o, day, iv, offset) == IntervalStarts(c, o, day, iv, MINUTES_IN_DAY)
  {
  }

  // ----- The generator --------------------------------------------------------------

  /** One offset: the slot is kept unless blocked, outside the window, already seen or busy. */
  method TryOffset(c: SlotConfig, o: Options, day: int, offset: int,
      blocks: seq<BlockedDate>, seen0: set<int>, slots0: seq<Span>)
    returns (seen: set<int>, slots: seq<Span>)
    requires WellFormed(c) && blocks == BlocksOn(c.blockedDates, day) && 0 <= offset < MINUTES_IN_DAY
    requires Collected(c, slots0, seen0)
    ensures Collected(c, slots, seen)
    ensures seen == seen0 + if Admits(c, o, day, offset) then {StartOf(c, day, offset)} else {}
  {
    seen, slots := seen0, slots0;
    if IsBlocked(blocks, offset, offset + c.slotDurationMinutes) {
      return;
    }
    var startAt := WallTimeToUtc(day, offset, c.timezone);
    if startAt.None? {
      return;
    }
    var s := startAt.value;
    var slot := Span(s, AddMinutes(s, c.slotDurationMinutes));
    if s < Earliest(c, o) || s >= Latest(c, o) || s in seen || !Clear(o.busy, slot) {
      return;
    }
    CollectOne(c, slots, seen, s);
    seen := seen + {s};
    slots := slots + [slot];
  }

  method ScanInterval(c: SlotConfig, o: Options, day: int, iv: Interval,
      blocks: seq<BlockedDate>, seen0: set<int>, slots0: seq<Span>)
    returns (seen: set<int>, slots: seq<Span>)
    requires WellFormed(c) && blocks == BlocksOn(c.blockedDates, day)
    requires Collected(c, slots0, seen0)
    ensures Collected(c, slots, seen)
    ensures seen == seen0 + IntervalStarts(c, o, day, iv, MINUTES_IN_DAY)
  {
    seen, slots := seen0, slots0;
    var offset := iv.From();
    while offset + c.slotDurationMinutes <= iv.To()
      invariant OnStep(c, iv, offset)
      invariant Collected(c, slots, seen)
      invariant seen == seen0 + IntervalStarts(c, o, day, iv, offset)
      decreases iv.To() - offset
    {
      IntervalStep(c, o, day, iv, offset);
      seen, slots := TryOffset(c, o, day, offset, blocks, seen, slots);
      offset := offset + Step(c);
    }
    NoRoomBeyond(c, o, day, iv, offset);
  }

  method ScanDay(c: SlotConfig, o: Options, day: int, ivs: seq<Interval>,
      blocks: seq<BlockedDate>, seen0: set<int>, slots0: seq<Span>)
    returns (seen: set<int>, slots: seq<Span>)
    requires WellFormed(c) && blocks == BlocksOn(c.blockedDates, day)
    requires Collected(c, slots0, seen0)
    ensures Collected(c, slots, seen)
    ensures seen == seen0 + DayStarts(c, o, day, ivs)
  {
    seen, slots := seen0, slots0;
    if exists block | block in blocks :: FullDay(block) {
      FullDayOffersNothing(c, o, day, ivs);
      return;
    }
    for i := 0 to |ivs|
      invariant Collected(c, slots, seen)
      invariant seen == seen0 + DayStarts(c, o, day, ivs[..i])
    {
      seen, slots := ScanInterval(c, o, day, ivs[i], blocks, seen, slots);
      assert ivs[..i + 1][..i] == ivs[..i];
    }
    assert ivs[..|ivs|] == ivs;
  }

  lemma {:induction false} FullDayOffersNothing(c: SlotConfig, o: Options, day: int, ivs: seq<Interval>)
    requires WellFormed(c)
    requires exists block | block in BlocksOn(c.blockedDates, day) :: FullDay(block)
    ensures DayStarts(c, o, day, ivs) == {}
  {
    if ivs != [] {
      FullDayOffersNothing(c, o, day, ivs[..|ivs| - 1]);
      var block :| block in BlocksOn(c.blockedDates, day) && FullDay(block);
      forall m ensures !Unblocked(c, day, m) {
        assert Blocks(block, m, m + c.slotDurationMinutes);
      }
    }
  }

  method IndexByWeekday(days: seq<WorkingDay>) returns (index: map<int, seq<Interval>>)
    ensures forall w :: IntervalsOn(days, w) == if w in index then index[w] else []
  {
    index := map[];
    for i := 0 to |days|
      invariant forall w :: IntervalsOn(days[..i], w) == if w in index then index[w] else []
    {
      index := index[days[i].weekday := days[i].intervals];
      assert days[..i + 1][..i] == days[..i];
    }
    assert days[..|days|] == days;
  }

  method IndexByDate(blocked: seq<BlockedDate>) returns (index: map<int, seq<BlockedDate>>)
    ensures forall d :: BlocksOn(blocked, d) == if d in index then index[d] else []
  {
    index := map[];
    for i := 0 to |blocked|
      invariant forall d :: BlocksOn(blocked[..i], d) == if d in index then index[d] else []
    {
      var block := blocked[i];
      if block.date in index {
        index := index[block.date := index[block.date] + [block]];
      } else {
        index := index[block.date := [block]];
      }
      assert blocked[..i + 1][..i] == blocked[..i];
    }
    assert blocked[..|blocked|] == blocked;
  }

  /** Every offered start, once and in order, and nothing else. */
  method GenerateSlots(c: SlotConfig, o: Options) returns (slots: seq<Span>)
    requires Stored(c)
    ensures slots == SlotsOf(c, o)
  {
    var earliest, latest := Earliest(c, o), Latest(c, o);
    if earliest >= latest {
      assert OfferedStarts(c, o) == {};
      return [];
    }
    var intervalsByWeekday := IndexByWeekday(c.weeklyHours);
    var blocksByDate := IndexByDate(c.blockedDates);
    var seen: set<int> := {};
    slots := [];
    var days := DateKeysBetween(earliest, latest, c.timezone);
    for i := 0 to |days|
      invariant Collected(c, slots, seen)
      invariant seen == RangeStarts(c, o, days[..i])
    {
      var day := days[i];
      var w := Weekday(day, c.timezone);
      var ivs := if w in intervalsByWeekday then intervalsByWeekday[w] else [];
      var blocks := if day in blocksByDate then blocksByDate[day] else [];
      seen, slots := ScanDay(c, o, day, ivs, blocks, seen, slots);
      assert days[..i + 1][..i] == days[..i];
    }
    AllDaysScanned(c, o, days, seen, slots);
    slots := SortBy(slots, (slot: Span) => slot.startAt);
  }

  // ----- The loops collect the declarative set --------------------------------------

  lemma {:induction false} InDayStarts(c: SlotConfig, o: Options, day: int, ivs: seq<Interval>, s: int)
    requires WellFormed(c)
    ensures s in DayStarts(c, o, day, ivs)
      <==> exists iv, m | iv in ivs && 0 <= m < MINUTES_IN_DAY ::
             Candidate(c, o, day, iv, m) && StartOf(c, day, m) == s
  {
    if ivs != [] {
      var front, last := ivs[..|ivs| - 1], ivs[|ivs| - 1];
      InDayStarts(c, o, day, front, s);
      assert ivs == front + [last];
    }
  }

  lemma {:induction false} InRangeStarts(c: SlotConfig, o: Options, days: seq<int>, s: int)
    requires WellFormed(c)
    ensures s in RangeStarts(c, o, days)
      <==> exists day | day in days :: s in DayStarts(c, o, day, DayIntervals(c, day))
  {
    if days != [] {
      var front, last := days[..|days| - 1], days[|days| - 1];
      InRangeStarts(c, o, front, s);
      assert days == front + [last];
    }
  }

  /** A coherent zone leaves one day to look at for each instant. */
  lemma StartsOfDay(c: SlotConfig, o: Options, day: int, s: int)
    requires Stored(c)
    ensures s in DayStarts(c, o, day, DayIntervals(c, day))
      <==> && day == c.timezone.localDate(s)
           && Earliest(c, o) <= s < Latest(c, o)
           && OnGrid(c, s)
           && Clear(o.busy, SpanAt(c, s))
  {
    var ivs := DayIntervals(c, day);
    InDayStarts(c, o, day, ivs, s);
    if s in DayStarts(c, o, day, ivs) {
      var iv, m :| iv in ivs && 0 <= m < MINUTES_IN_DAY
        && Candidate(c, o, day, iv, m) && StartOf(c, day, m) == s;
      assert Offers(c, day, m);
    }
    if day == c.timezone.localDate(s) && OnGrid(c, s) && Earliest(c, o) <= s < Latest(c, o)
      && Clear(o.busy, SpanAt(c, s)) {
      var m :| 0 <= m < MINUTES_IN_DAY && StartOf(c, day, m) == s && Offers(c, day, m);
      var iv :| iv in ivs && InInterval(c, iv, m);
      assert Candidate(c, o, day, iv, m);
    }
  }

  lemma RangeStartsAreOffered(c: SlotConfig, o: Options)
    requires Stored(c)
    ensures RangeStarts(c, o, DateKeys(c.timezone, Earliest(c, o), Latest(c, o)))
      == OfferedStarts(c, o)
  {
    var z := c.timezone;
    var days := DateKeys(z, Earliest(c, o), Latest(c, o));
    forall s ensures s in RangeStarts(c, o, days) <==> s in OfferedStarts(c, o) {
      InRangeStarts(c, o, days, s);
      forall day ensures s in DayStarts(c, o, day, DayIntervals(c, day))
        <==> && day == z.localDate(s) && Earliest(c, o) <= s < Latest(c, o)
             && OnGrid(c, s) && Clear(o.busy, SpanAt(c, s))
      {
        StartsOfDay(c, o, day, s);
      }
    }
  }

  /** What the loops leave behind, sorted, is the listing. */
  lemma AllDaysScanned(c: SlotConfig, o: Options, days: seq<int>, seen: set<int>, slots: seq<Span>)
    requires Stored(c) && days == DateKeys(c.timezone, Earliest(c, o), Latest(c, o))
    requires Collected(c, slots, seen) && seen == RangeStarts(c, o, days[..|days|])
    ensures SortBy(slots, (slot: Span) => slot.startAt) == SlotsOf(c, o)
  {
    assert days[..|days|] == days;
    RangeStartsAreOffered(c, o);
    SortedCollection(c, slots, seen);
  }

  /** Sorting what was collected gives the ascending listing. */
  lemma SortedCollection(c: SlotConfig, slots: seq<Span>, seen: set<int>)
    requires Collected(c, slots, seen)
    ensures SortBy(slots, (slot: Span) => slot.startAt) == SpanList(c, Ascending(seen))
  {
    var key := (slot: Span) => slot.startAt;
    var r := SortBy(slots, key);
    SortBySorts(slots, key);
    assert multiset(r) == multiset(SpansOf(c, seen));
    var starts := seq(|r|, i requires 0 <= i < |r| => r[i].startAt);
    forall i | 0 <= i < |r| ensures r[i].startAt in seen && r[i] == SpanAt(c, starts[i]) {
      assert r[i] in multiset(r);
    }
    forall i, j | 0 <= i < j < |r| ensures starts[i] < starts[j] {
      assert key(r[i]) <= key(r[j]);
      if starts[i] == starts[j] {
        TwiceCounted(r, i, j);
      }
    }
    forall s ensures s in starts <==> s in Ascending(seen) {
      if s in seen {
        assert SpanAt(c, s) in multiset(r);
        var i :| 0 <= i < |r| && r[i] == SpanAt(c, s);
        assert starts[i] == s;
      }
    }
    SameElementsSameListing(starts, Ascending(seen));
  }

  lemma TwiceCounted(r: seq<Span>, i: int, j: int)
    requires 0 <= i < j < |r| && r[i] == r[j]
    ensures 2 <= multiset(r)[r[i]]
  {
    assert r == r[..j] + [r[j]] + r[j + 1..];
    assert r[i] in r[..j];
    assert multiset(r) == multiset(r[..j]) + multiset{r[j]} + multiset(r[j + 1..]);
  }
}
