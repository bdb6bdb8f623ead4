/** The two uses of the generator: the public listing and the gate on every write
    (src/services/slot.service.ts). */
module Listing {
  import opened Wrappers
  import opened Datetime
  import opened Sorting
  import opened Availability
  import opened Bookings
  import opened Slots

  const SLOT_RANGE_DAYS_MAX := 31

  datatype RangeError = EndsBeforeStart | TooLong

  /** The instant is on the schedule's grid, with enough notice and inside the horizon. */
  ghost predicate GateOpen(c: SlotConfig, now: int, s: int)
    requires WellFormed(c)
  {
    OnGrid(c, s) && AddMinutes(now, c.minNoticeMinutes) <= s < AddDays(now, c.maxAdvanceDays)
  }

  lemma SlotIff(c: SlotConfig, o: Options, x: Span)
    requires WellFormed(c)
    ensures x in SlotsOf(c, o) <==> x == SpanAt(c, x.startAt) && Offered(c, o, x.startAt)
  {
    var starts := Ascending(OfferedStarts(c, o));
    var slots := SlotsOf(c, o);
    if x in slots {
      var i :| 0 <= i < |slots| && slots[i] == x;
      assert starts[i] in starts;
    }
    if x == SpanAt(c, x.startAt) && Offered(c, o, x.startAt) {
      assert x.startAt in OfferedStarts(c, o) && x.startAt in starts;
      var i :| 0 <= i < |starts| && starts[i] == x.startAt;
      assert slots[i] == x;
    }
  }

  lemma SlotsAscend(c: SlotConfig, o: Options, i: int, j: int)
    requires WellFormed(c) && 0 <= i < j < |SlotsOf(c, o)|
    ensures SlotsOf(c, o)[i].startAt < SlotsOf(c, o)[j].startAt
  {
    var starts := Ascending(OfferedStarts(c, o));
    assert starts[i] < starts[j];
  }

  lemma SlotsOfAscend(c: SlotConfig, o: Options)
    requires WellFormed(c)
    ensures Ascend(SlotsOf(c, o))
  {
    forall i, j | 0 <= i < j < |SlotsOf(c, o)|
      ensures SlotsOf(c, o)[i].startAt < SlotsOf(c, o)[j].startAt
    {
      SlotsAscend(c, o, i, j);
    }
  }

  /** Asking for the one minute from an instant tells whether the schedule offers it. */
  method IsOfferedSlot(c: SlotConfig, startAt: int, now: int) returns (ok: bool)
    requires Stored(c)
    ensures ok <==> GateOpen(c, now, startAt)
  {
    var o := Options(startAt, AddMinutes(startAt, 1), now, []);
    var slots := GenerateSlots(c, o);
    ok := exists slot | slot in slots :: slot.startAt == startAt;
    SlotIff(c, o, SpanAt(c, startAt));
    forall slot | slot in slots ensures slot == SpanAt(c, slot.startAt) {
      SlotIff(c, o, slot);
    }
    assert Earliest(c, o) <= startAt < Latest(c, o)
      ==> c.timezone.localDate(startAt) == c.timezone.localDate(Earliest(c, o));
  }

  /** What the listing fetches: active bookings of the consultant that touch the range. */
  predicate Fetched(db: Store, hr: nat, from: int, to: int, id: nat) {
    && id in db
    && db[id].hrUserId == hr && Active(db[id])
    && db[id].endAt > from && db[id].startAt < to
  }

  function SpanOf(b: Booking): Span {
    Span(b.startAt, b.endAt)
  }

  /** `busy` lists the spans of the fetched bookings among `ids`. */
  ghost predicate IsBusyList(db: Store, ids: set<nat>, hr: nat, from: int, to: int, busy: seq<Span>) {
    forall x ::
      x in busy <==> (exists id | id in ids :: Fetched(db, hr, from, to, id) && SpanOf(db[id]) == x)
  }

  method FindBusy(db: Store, hr: nat, from: int, to: int) returns (busy: seq<Span>)
    ensures IsBusyList(db, db.Keys, hr, from, to, busy)
  {
    busy := [];
    var rest := db.Keys;
    while rest != {}
      invariant rest <= db.Keys
      invariant IsBusyList(db, db.Keys - rest, hr, from, to, busy)
      decreases |rest|
    {
      var id :| id in rest;
      rest := rest - {id};
      if Fetched(db, hr, from, to, id) {
        busy := busy + [SpanOf(db[id])];
      }
    }
    assert db.Keys - rest == db.Keys;
  }

  /** No fetched booking overlaps the slot. */
  predicate FetchedClear(db: Store, hr: nat, from: int, to: int, slot: Span) {
    forall id | id in db :: Fetched(db, hr, from, to, id) ==>
      !Overlaps(slot.startAt, slot.endAt, db[id].startAt, db[id].endAt)
  }

  /** The listing's slots: in order, and exactly those the gate accepts in the range that no
      fetched booking overlaps, on the days the enumeration reaches. */
  ghost predicate IsListing(db: Store, hr: nat, c: SlotConfig, from: int, to: int, now: int, slots: seq<Span>)
    requires WellFormed(c)
  {
    && Ascend(slots)
    && (forall x :: x in slots <==>
          && x == SpanAt(c, x.startAt)
          && GateOpen(c, now, x.startAt)
          && from <= x.startAt < to
          && FetchedClear(db, hr, from, to, x)
          && DayEnumerated(c, Options(from, to, now, []), x.startAt))
  }

  lemma BusyIsFetched(db: Store, hr: nat, from: int, to: int, busy: seq<Span>, x: Span)
    requires IsBusyList(db, db.Keys, hr, from, to, busy)
    ensures Clear(busy, x) <==> FetchedClear(db, hr, from, to, x)
  {
    forall id | id in db && Fetched(db, hr, from, to, id) ensures SpanOf(db[id]) in busy {
    }
  }

  lemma GeneratedIsListing(db: Store, hr: nat, c: SlotConfig, o: Options)
    requires WellFormed(c) && IsBusyList(db, db.Keys, hr, o.rangeStart, o.rangeEnd, o.busy)
    ensures IsListing(db, hr, c, o.rangeStart, o.rangeEnd, o.now, SlotsOf(c, o))
  {
    SlotsOfAscend(c, o);
    forall x ensures x in SlotsOf(c, o) <==> x == SpanAt(c, x.startAt) && Offered(c, o, x.startAt) {
      SlotIff(c, o, x);
    }
    forall x ensures Clear(o.busy, x) <==> FetchedClear(db, hr, o.rangeStart, o.rangeEnd, x) {
      BusyIsFetched(db, hr, o.rangeStart, o.rangeEnd, o.busy, x);
    }
  }

  method GetAvailableSlots(db: Store, hr: nat, c: SlotConfig, from: int, to: int, now: int)
    returns (r: Result<seq<Span>, RangeError>)
    requires Stored(c)
    ensures r == Err(EndsBeforeStart) <==> to <= from
    ensures r == Err(TooLong) <==> 31 * 86_400_000 < to - from
    ensures r.Ok? ==> IsListing(db, hr, c, from, to, now, r.value)
  {
    if from >= to {
      return Err(EndsBeforeStart);
    }
    if to - from > SLOT_RANGE_DAYS_MAX * DAY {
      return Err(TooLong);
    }
    var busy := FindBusy(db, hr, from, to);
    var o := Options(from, to, now, busy);
    var slots := GenerateSlots(c, o);
    GeneratedIsListing(db, hr, c, o);
    return Ok(slots);
  }

  /** Listing and gate agree at the same moment, for every instant of the range. */
  lemma ListingAgreesWithGate(db: Store, hr: nat, c: SlotConfig, from: int, to: int, now: int,
      slots: seq<Span>, s: int)
    requires Stored(c) && MidnightsExist(c.timezone)
    requires IsListing(db, hr, c, from, to, now, slots) && from <= s < to
    ensures SpanAt(c, s) in slots
      <==> GateOpen(c, now, s) && FetchedClear(db, hr, from, to, SpanAt(c, s))
    ensures SpanAt(c, s).endAt <= to ==> (
      SpanAt(c, s) in slots
      <==> GateOpen(c, now, s) && Free(db, Consultant(hr), s, SpanAt(c, s).endAt, None))
  {
    var o := Options(from, to, now, []);
    if GateOpen(c, now, s) {
      AllDaysEnumerated(c, o, s);
    }
    if SpanAt(c, s).endAt <= to {
      forall id | id in db
        ensures Conflicts(db, Consultant(hr), s, SpanAt(c, s).endAt, None, id)
          <==> Fetched(db, hr, from, to, id)
               && Overlaps(s, SpanAt(c, s).endAt, db[id].startAt, db[id].endAt)
      {
      }
    }
  }

  /** With no skipped midnight the enumeration misses no day of the window. */
  lemma AllDaysEnumerated(c: SlotConfig, o: Options, s: int)
    requires Stored(c) && MidnightsExist(c.timezone)
    requires Earliest(c, o) <= s < Latest(c, o)
    ensures DayEnumerated(c, o, s)
  {
    var z := c.timezone;
    var a, b := z.localDate(Earliest(c, o)), z.localDate(Latest(c, o));
    forall j | a <= j < b ensures MidnightExists(z, j) {
    }
    CursorAtMidnight(z, a, b);
  }
}
