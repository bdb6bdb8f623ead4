/** Busy time only filters the listing, and windows compose, exactly where no midnight is
    skipped. */
module Windows {
  import opened Datetime
  import opened Sorting
  import opened Availability
  import opened Slots
  import opened Listing
  import opened SlotLaws

  /** An ascending list of slots is determined by its elements. */
  lemma SameSlots(xs: seq<Span>, ys: seq<Span>)
    requires Ascend(xs) && Ascend(ys) && forall x :: x in xs <==> x in ys
    ensures xs == ys
  {
    var xStarts := seq(|xs|, i requires 0 <= i < |xs| => xs[i].startAt);
    var yStarts := seq(|ys|, i requires 0 <= i < |ys| => ys[i].startAt);
    forall s ensures s in xStarts <==> s in yStarts {
      if s in xStarts {
        var i :| 0 <= i < |xStarts| && xStarts[i] == s;
        assert xs[i] in ys;
        var j :| 0 <= j < |ys| && ys[j] == xs[i];
        assert yStarts[j] == s;
      }
      if s in yStarts {
        var i :| 0 <= i < |yStarts| && yStarts[i] == s;
        assert ys[i] in xs;
        var j :| 0 <= j < |xs| && xs[j] == ys[i];
        assert xStarts[j] == s;
      }
    }
    SameElementsSameListing(xStarts, yStarts);
    forall i | 0 <= i < |xs| ensures xs[i] == ys[i] {
      assert xs[i] in ys;
      var j :| 0 <= j < |ys| && ys[j] == xs[i];
      assert xStarts[i] == yStarts[i] == yStarts[j];
    }
  }

  // ----- Busy time only filters -------------------------------------------------------

  function KeepClear(slots: seq<Span>, busy: seq<Span>): seq<Span> {
    if slots == [] then []
    else
      var last := slots[|slots| - 1];
      KeepClear(slots[..|slots| - 1], busy) + if Clear(busy, last) then [last] else []
  }

  lemma {:induction false} KeepClearKeeps(slots: seq<Span>, busy: seq<Span>)
    requires Ascend(slots)
    ensures Ascend(KeepClear(slots, busy))
    ensures forall x :: x in KeepClear(slots, busy) <==> x in slots && Clear(busy, x)
  {
    if slots != [] {
      var front, last := slots[..|slots| - 1], slots[|slots| - 1];
      KeepClearKeeps(front, busy);
      assert slots == front + [last];
      forall i | 0 <= i < |KeepClear(front, busy)|
        ensures KeepClear(front, busy)[i].startAt < last.startAt
      {
        assert KeepClear(front, busy)[i] in front;
      }
    }
  }

  /** More busy time removes the slots it overlaps and moves none. */
  lemma BusyOnlyFilters(c: SlotConfig, o: Options, more: seq<Span>)
    requires Stored(c)
    ensures SlotsOf(c, o.(busy := o.busy + more)) == KeepClear(SlotsOf(c, o), more)
  {
    var o' := o.(busy := o.busy + more);
    SlotsOfAscend(c, o);
    SlotsOfAscend(c, o');
    KeepClearKeeps(SlotsOf(c, o), more);
    forall x ensures x in SlotsOf(c, o') <==> x in KeepClear(SlotsOf(c, o), more) {
      SlotIff(c, o, x);
      SlotIff(c, o', x);
      assert Clear(o.busy + more, x) <==> Clear(o.busy, x) && Clear(more, x);
    }
    SameSlots(SlotsOf(c, o'), KeepClear(SlotsOf(c, o), more));
  }

  // ----- Windows compose ----------------------------------------------------------------

  /** The slots of [a, e) are those of [a, b) followed by those of [b, e). */
  ghost predicate Composes(c: SlotConfig, a: int, b: int, e: int, now: int, busy: seq<Span>)
    requires Stored(c)
  {
    SlotsOf(c, Options(a, e, now, busy))
    == SlotsOf(c, Options(a, b, now, busy)) + SlotsOf(c, Options(b, e, now, busy))
  }

  lemma OfferedIff(c: SlotConfig, o: Options, s: int)
    requires Stored(c) && MidnightsExist(c.timezone)
    ensures Offered(c, o, s)
      <==> o.rangeStart <= s < o.rangeEnd && GateOpen(c, o.now, s) && Clear(o.busy, SpanAt(c, s))
  {
    if Earliest(c, o) <= s < Latest(c, o) {
      AllDaysEnumerated(c, o, s);
    }
  }

  lemma WindowsCompose(c: SlotConfig, a: int, b: int, e: int, now: int, busy: seq<Span>)
    requires Stored(c) && MidnightsExist(c.timezone) && a <= b <= e
    ensures Composes(c, a, b, e, now, busy)
  {
    var o, o1, o2 := Options(a, e, now, busy), Options(a, b, now, busy), Options(b, e, now, busy);
    var xs, ys := SlotsOf(c, o1), SlotsOf(c, o2);
    SlotsOfAscend(c, o);
    SlotsOfAscend(c, o1);
    SlotsOfAscend(c, o2);
    forall x ensures x in SlotsOf(c, o) <==> x in xs + ys {
      SlotIff(c, o, x);
      SlotIff(c, o1, x);
      SlotIff(c, o2, x);
      OfferedIff(c, o, x.startAt);
      OfferedIff(c, o1, x.startAt);
      OfferedIff(c, o2, x.startAt);
    }
    forall x | x in xs ensures x.startAt < b {
      SlotIff(c, o1, x);
    }
    forall y | y in ys ensures b <= y.startAt {
      SlotIff(c, o2, y);
    }
    forall i, j | 0 <= i < j < |xs + ys| ensures (xs + ys)[i].startAt < (xs + ys)[j].startAt {
      assert i < |xs| ==> (xs + ys)[i] in xs;
      assert |xs| <= j ==> (xs + ys)[j] in ys;
    }
    SameSlots(SlotsOf(c, o), xs + ys);
  }

  /** With nothing booked, the listing of a range shows an instant exactly when the gate takes it. */
  ghost predicate Agrees(c: SlotConfig, from: int, to: int, now: int, s: int)
    requires Stored(c)
  {
    Offered(c, Options(from, to, now, []), s) <==> GateOpen(c, now, s)
  }

  predicate SkipIsolated(z: Zone, k: int) {
    MidnightExists(z, k) || MidnightExists(z, k + 1)
  }

  ghost predicate EndsBy(z: Zone, day: int, limit: int) {
    forall t | 0 <= t < DAY :: z.resolve(day, t) <= limit
  }

  ghost predicate DaysShort(z: Zone, k: int) {
    EndsBy(z, k + 1, z.resolve(k, 0) + 3 * DAY)
  }

  /** No two midnights in a row are skipped, and two local days last at most three days. */
  ghost predicate Ordinary(z: Zone) {
    && z.valid && Coherent(z) && PushesForward(z)
    && (forall k :: SkipIsolated(z, k))
    && (forall k :: DaysShort(z, k))
  }

  /** After a skipped midnight on day `j` the cursor reaches the next day late, but on that day. */
  lemma CursorOvershoots(z: Zone, j: int)
    requires Ordinary(z) && !MidnightExists(z, j)
    ensures var a, s, e := z.resolve(j, 0), z.resolve(j + 1, 0), CursorOn(z, j, j + 1);
      && a <= s < e <= a + 3 * DAY
      && z.localDate(a) == j && z.localDate(s) == j + 1 && z.localDate(e) == j + 1
  {
    assert SkipIsolated(z, j) && DaysShort(z, j);
    MidnightBeginsOnce(z, j + 1);
    LastDayReachedIff(z, j, j + 1);
    var a, s := z.resolve(j, 0), z.resolve(j + 1, 0);
    assert z.localDate(a) == j && z.localDate(s) == j + 1;
  }

  function MidnightConfig(z: Zone, j: int): SlotConfig {
    TwoSlotConfig(z, 15, j, 0, j + 1, 0)
  }

  lemma MidnightConfigOffers(z: Zone, j: int)
    requires z.valid && Coherent(z)
    ensures Stored(MidnightConfig(z, j)) && OnGrid(MidnightConfig(z, j), z.resolve(j + 1, 0))
  {
    TwoSlotConfigOffers(z, 15, j, 0, j + 1, 0);
    OfferOnGrid(MidnightConfig(z, j), j + 1, 0);
  }

  /** A slot at the midnight after a skipped one is hidden from a range that begins the day
      before, though the gate and a range of its own show it. */
  lemma SkippedMidnightHidesSlot(z: Zone, j: int)
    requires Ordinary(z) && !MidnightExists(z, j)
    ensures var c := MidnightConfig(z, j);
      var a, s, e := z.resolve(j, 0), z.resolve(j + 1, 0), CursorOn(z, j, j + 1);
      && Stored(c) && a <= s < e && GateOpen(c, a, s)
      && !Offered(c, Options(a, e, a, []), s) && Offered(c, Options(s, e, a, []), s)
  {
    CursorOvershoots(z, j);
    MidnightConfigOffers(z, j);
    var c := MidnightConfig(z, j);
    var a, s, e := z.resolve(j, 0), z.resolve(j + 1, 0), CursorOn(z, j, j + 1);
    var o, o' := Options(a, e, a, []), Options(s, e, a, []);
    assert Earliest(c, o) == a && Latest(c, o) == e;
    assert Earliest(c, o') == s && Latest(c, o') == e;
  }

  /** The listing agrees with the gate for every schedule in an ordinary zone exactly when the
      zone skips no midnight. */
  lemma AgreesIffMidnightsExist(z: Zone)
    requires Ordinary(z)
    ensures (forall c, from, to, now, s | Stored(c) && c.timezone == z && from <= s < to ::
        Agrees(c, from, to, now, s))
      <==> MidnightsExist(z)
  {
    if MidnightsExist(z) {
      forall c, from, to, now, s | Stored(c) && c.timezone == z && from <= s < to
        ensures Agrees(c, from, to, now, s)
      {
        OfferedIff(c, Options(from, to, now, []), s);
      }
    } else {
      var j :| !MidnightExists(z, j);
      SkippedMidnightHidesSlot(z, j);
      var a, s, e := z.resolve(j, 0), z.resolve(j + 1, 0), CursorOn(z, j, j + 1);
      assert !Agrees(MidnightConfig(z, j), a, e, a, s);
    }
  }

  lemma SkippedMidnightBreaksComposition(z: Zone, j: int)
    requires Ordinary(z) && !MidnightExists(z, j)
    ensures var a, s, e := z.resolve(j, 0), z.resolve(j + 1, 0), CursorOn(z, j, j + 1);
      && a <= s < e && Stored(MidnightConfig(z, j))
      && !Composes(MidnightConfig(z, j), a, s, e, a, [])
  {
    SkippedMidnightHidesSlot(z, j);
    var c := MidnightConfig(z, j);
    var a, s, e := z.resolve(j, 0), z.resolve(j + 1, 0), CursorOn(z, j, j + 1);
    SlotIff(c, Options(a, e, a, []), SpanAt(c, s));
    SlotIff(c, Options(s, e, a, []), SpanAt(c, s));
  }

  /** Windows compose for every schedule in an ordinary zone exactly when the zone skips no
      midnight. */
  lemma WindowsComposeIff(z: Zone)
    requires Ordinary(z)
    ensures (forall c, a, b, e, now, busy | Stored(c) && c.timezone == z && a <= b <= e ::
        Composes(c, a, b, e, now, busy))
      <==> MidnightsExist(z)
  {
    if MidnightsExist(z) {
      forall c, a, b, e, now, busy | Stored(c) && c.timezone == z && a <= b <= e
        ensures Composes(c, a, b, e, now, busy)
      {
        WindowsCompose(c, a, b, e, now, busy);
      }
    } else {
      var j :| !MidnightExists(z, j);
      SkippedMidnightBreaksComposition(z, j);
    }
  }

  /** Ordinary zones of both kinds exist. */
  lemma OrdinaryZones(offset: int, gap: int)
    requires 0 <= gap <= DAY - 2 * HOUR
    ensures Ordinary(FixedOffset(offset)) && MidnightsExist(FixedOffset(offset))
    ensures Ordinary(SpringForward(gap)) && (MidnightsExist(SpringForward(gap)) <==> 0 < gap)
  {
    FixedOffsetIsRegular(offset);
    SpringForwardIsCoherent(gap);
    SpringForwardPushes(gap);
    SpringForwardMidnights(gap);
    var z := FixedOffset(offset);
    forall k ensures SkipIsolated(z, k) && DaysShort(z, k) {
      assert MidnightExists(z, k);
    }
    SpringForwardIsOrdinary(gap);
  }

  lemma SpringForwardIsOrdinary(gap: int)
    requires 0 <= gap <= DAY - 2 * HOUR
    ensures forall k :: SkipIsolated(SpringForward(gap), k)
    ensures forall k :: DaysShort(SpringForward(gap), k)
  {
    var z := SpringForward(gap);
    SpringForwardMidnights(gap);
    assert MidnightExists(z, 2);
    forall k ensures DaysShort(z, k) {
    }
  }
}
